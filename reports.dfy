/**
 * The figures the financial report and the dashboard derive from the
 * statistics: the displayed revenue and net profit, each month's estimated
 * profit, the month-over-month comparison and its message, the sales trend
 * and when the sales summary is shown.
 */
module Reports {
  import opened Wrappers
  import opened Time
  import opened Text
  import opened Schema
  import opened Stats
  import opened Tables

  /** "Receita Total": the revenue of the current and the previous month, not of all time. */
  function DisplayedRevenue(s: DashboardStats): int {
    s.currentMonthRevenue + s.previousMonthRevenue
  }

  /** "Lucro Líquido Estimado": the two-month revenue less the all-time expenses. */
  function EstimatedNetProfit(s: DashboardStats): int {
    DisplayedRevenue(s) - s.totalExpenses
  }

  /** A month's estimated profit, on both pages: that month's revenue less that month's expenses. */
  function MonthProfit(s: DashboardStats, current: bool): int {
    if current then s.currentMonthRevenue - s.currentMonthExpenses
    else s.previousMonthRevenue - s.previousMonthExpenses
  }

  function SalesChange(s: DashboardStats): int {
    s.currentMonthSales - s.previousMonthSales
  }

  function RevenueChange(s: DashboardStats): int {
    s.currentMonthRevenue - s.previousMonthRevenue
  }

  /** The comparison card appears only when the two months differ in sales count or in revenue. */
  predicate ShowsComparison(s: DashboardStats) {
    SalesChange(s) != 0 || RevenueChange(s) != 0
  }

  lemma ComparisonShownIff(s: DashboardStats)
    ensures ShowsComparison(s) <==>
      (s.currentMonthSales, s.currentMonthRevenue) != (s.previousMonthSales, s.previousMonthRevenue)
  {
  }

  // ---- the displayed figures against the rows ----

  /** Two sales windows apart from the current and the previous month. */
  predicate OutsideTwoMonths(v: Vehicle, now: Instant) {
    v.saleDate.Some? && Valid(v.saleDate.value)
    && MonthIndex(v.saleDate.value) != now.year * 12 + now.month
    && MonthIndex(v.saleDate.value) != now.year * 12 + now.month - 1
  }

  lemma NotSoldInWindow(v: Vehicle, now: Instant, offset: int)
    requires OutsideTwoMonths(v, now) && (offset == 0 || offset == -1)
    ensures SalesIn([v], GetMonthRange(now, offset)) == []
  {
    InMonthRange(v.saleDate.value, now, offset);
  }

  /**
   * The displayed revenue is the two-month revenue: a sale dated in any
   * other month, however large, leaves it unchanged.
   */
  lemma OlderSaleNotInRevenue(vs: seq<Vehicle>, v: Vehicle, es: seq<Expense>, ss: seq<StoreExpense>, now: Instant)
    requires OutsideTwoMonths(v, now)
    ensures DisplayedRevenue(ComputeStats(vs + [v], es, ss, now)) == DisplayedRevenue(ComputeStats(vs, es, ss, now))
  {
    SalesInAppend(vs, [v], GetMonthRange(now, 0));
    SalesInAppend(vs, [v], GetMonthRange(now, -1));
    NotSoldInWindow(v, now, 0);
    NotSoldInWindow(v, now, -1);
    assert SalesIn(vs + [v], GetMonthRange(now, 0)) == SalesIn(vs, GetMonthRange(now, 0));
    assert SalesIn(vs + [v], GetMonthRange(now, -1)) == SalesIn(vs, GetMonthRange(now, -1));
  }

  lemma SumExpensesAppend(es: seq<Expense>, e: Expense)
    ensures Sum(es + [e], ExpenseAmount) == Sum(es, ExpenseAmount) + e.amount
  {
    SumAppend(es, [e], ExpenseAmount);
    assert Sum([e], ExpenseAmount) == e.amount + Sum([e][1..], ExpenseAmount);
  }

  /**
   * The net profit mixes windows: an expense of any date, even one long
   * before the two months whose revenue is shown, lowers it by its amount.
   */
  lemma EveryExpenseLowersNetProfit(vs: seq<Vehicle>, es: seq<Expense>, e: Expense, ss: seq<StoreExpense>, now: Instant)
    ensures EstimatedNetProfit(ComputeStats(vs, es + [e], ss, now)) == EstimatedNetProfit(ComputeStats(vs, es, ss, now)) - e.amount
  {
    SumExpensesAppend(es, e);
  }

  /** A sale recorded now raises the current month's estimated profit by its price. */
  lemma SaleRaisesMonthProfit(vs: seq<Vehicle>, v: Vehicle, price: int, es: seq<Expense>, ss: seq<StoreExpense>, now: Instant)
    requires Valid(now)
    ensures var sold := v.(status := Sold, salePrice := Some(price), saleDate := Some(now));
      MonthProfit(ComputeStats(vs + [sold], es, ss, now), true) == MonthProfit(ComputeStats(vs, es, ss, now), true) + price
  {
    SaleAddsToCurrentMonth(vs, v, price, now);
  }

  // ---- the comparison message ----

  /** The sales sentence of the comparison card. */
  datatype SalesNote = Increase(n: nat) | Reduction(n: nat) | SameSales

  function SalesNoteOf(change: int): (r: SalesNote)
    ensures r.Increase? <==> change > 0
    ensures r.Reduction? <==> change < 0
    ensures r.SameSales? <==> change == 0
    ensures r.Increase? ==> r.n == change
    ensures r.Reduction? ==> r.n == -change
  {
    if change > 0 then Increase(change)
    else if change < 0 then Reduction(-change)
    else SameSales
  }

  function SalesSentence(note: SalesNote): string {
    match note
    case Increase(n) => "Aumento de " + NatToString(n) + " venda(s) em relação ao mês anterior."
    case Reduction(n) => "Redução de " + NatToString(n) + " venda(s) em relação ao mês anterior."
    case SameSales => "Mesmo número de vendas que o mês anterior."
  }

  /** The revenue remark: the size of the difference and whether it is more or less; none when equal. */
  datatype RevenueNote = RevenueNote(amount: nat, more: bool)

  function RevenueNoteOf(change: int): (r: Option<RevenueNote>)
    ensures r.None? <==> change == 0
    ensures r.Some? ==> r.value.more == (change > 0)
    ensures r.Some? ==> r.value.amount == (if change < 0 then -change else change) > 0
  {
    if change == 0 then None
    else Some(RevenueNote(if change < 0 then -change else change, change > 0))
  }

  /** The note together with the sign it carries gives back the change it reports. */
  lemma NotesRecoverChanges(s: DashboardStats)
    ensures var sc := SalesChange(s); var note := SalesNoteOf(sc);
      sc == (match note case Increase(n) => n case Reduction(n) => -(n as int) case SameSales => 0)
    ensures var rc := RevenueChange(s); var note := RevenueNoteOf(rc);
      rc == (if note.None? then 0 else if note.value.more then note.value.amount else -(note.value.amount as int))
  {
  }

  // ---- the dashboard ----

  datatype Trend = Up | Down | Flat

  /** The trend icon beside the previous month's sales. */
  function TrendOf(s: DashboardStats): (r: Trend)
    ensures r == Up <==> s.currentMonthSales > s.previousMonthSales
    ensures r == Down <==> s.currentMonthSales < s.previousMonthSales
    ensures r == Flat <==> s.currentMonthSales == s.previousMonthSales
  {
    if s.currentMonthSales > s.previousMonthSales then Up
    else if s.currentMonthSales < s.previousMonthSales then Down
    else Flat
  }

  /** The dashboard's trend and the report's sales sentence always agree. */
  lemma TrendAgreesWithReport(s: DashboardStats)
    ensures TrendOf(s) == Up <==> SalesNoteOf(SalesChange(s)).Increase?
    ensures TrendOf(s) == Down <==> SalesNoteOf(SalesChange(s)).Reduction?
    ensures TrendOf(s) == Flat <==> SalesNoteOf(SalesChange(s)).SameSales?
  {
  }

  /** The monthly summary appears once either month has a sale. */
  predicate ShowsSalesSummary(s: DashboardStats) {
    s.currentMonthSales > 0 || s.previousMonthSales > 0
  }

  /** The summary is shown exactly when some vehicle was sold in the current or the previous month. */
  lemma SummaryShownIff(vs: seq<Vehicle>, es: seq<Expense>, ss: seq<StoreExpense>, now: Instant)
    ensures ShowsSalesSummary(ComputeStats(vs, es, ss, now)) <==>
      exists v :: v in vs && (SoldIn(v, GetMonthRange(now, 0)) || SoldIn(v, GetMonthRange(now, -1)))
  {
    var cur := SalesIn(vs, GetMonthRange(now, 0));
    var prev := SalesIn(vs, GetMonthRange(now, -1));
    if |cur| > 0 {
      assert cur[0] in cur;
    } else if |prev| > 0 {
      assert prev[0] in prev;
    } else {
      forall v | v in vs ensures !(SoldIn(v, GetMonthRange(now, 0)) || SoldIn(v, GetMonthRange(now, -1))) {
        assert v !in cur && v !in prev;
      }
    }
  }
}
