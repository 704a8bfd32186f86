/**
 * The dashboard statistics: counts over the vehicle table, all-time expense
 * totals and the sales, revenue and expenses of the current and previous
 * calendar months. Each figure is a function of the rows and of `now`.
 */
module Stats {
  import opened Wrappers
  import opened Time
  import opened Schema
  import opened Tables

  /**
   * The text the "available" count compares the status column with: the
   * UTF-8 bytes of "Disponível" read back as Mac OS Roman.
   */
  const MisencodedAvailable: string := "Dispon√≠vel"

  predicate IsSold(v: Vehicle) { v.status == Sold }

  predicate IsAvailable(v: Vehicle) { v.status == Available }

  /** `count(case when status = 'Vendido' then 1 end)`. */
  function CountSold(vs: seq<Vehicle>): (n: nat)
    ensures n <= |vs|
  {
    if vs == [] then 0 else (if vs[0].status == Sold then 1 else 0) + CountSold(vs[1..])
  }

  /** The sold count is the number of rows whose status is "Vendido". */
  lemma {:induction false} CountSoldIsFilter(vs: seq<Vehicle>)
    ensures CountSold(vs) == |Filter(vs, IsSold)|
  {
    if vs != [] {
      CountSoldIsFilter(vs[1..]);
    }
  }

  /** `count(case when status = 'Dispon√≠vel' then 1 end)`, as the query is written. */
  function CountAvailableAsWritten(vs: seq<Vehicle>): (n: nat)
    ensures n <= |vs|
  {
    if vs == [] then 0
    else (if StatusLabel(vs[0].status) == MisencodedAvailable then 1 else 0) + CountAvailableAsWritten(vs[1..])
  }

  /** The count the dashboard means to show: vehicles whose status is "Disponível". */
  function CountAvailable(vs: seq<Vehicle>): (n: nat)
    ensures n <= |vs|
  {
    if vs == [] then 0 else (if vs[0].status == Available then 1 else 0) + CountAvailable(vs[1..])
  }

  /** The corrected count is the number of rows whose status is "Disponível". */
  lemma {:induction false} CountAvailableIsFilter(vs: seq<Vehicle>)
    ensures CountAvailable(vs) == |Filter(vs, IsAvailable)|
  {
    if vs != [] {
      CountAvailableIsFilter(vs[1..]);
    }
  }

  /** No status label equals the mis-encoded literal, so the count as written is always zero. */
  lemma {:induction false} AvailableAsWrittenIsZero(vs: seq<Vehicle>)
    ensures CountAvailableAsWritten(vs) == 0
  {
    if vs != [] {
      var s := StatusLabel(vs[0].status);
      assert s != MisencodedAvailable by {
        assert s[|s| - 1] == 'l' ==> s[7] != MisencodedAvailable[7];
      }
      AvailableAsWrittenIsZero(vs[1..]);
    }
  }

  /** A dealership with one available vehicle shows zero available vehicles. */
  lemma AvailableAsWrittenMissesAvailableVehicle(v: Vehicle)
    requires v.status == Available
    ensures CountAvailable([v]) == 1 && CountAvailableAsWritten([v]) == 0
  {
    AvailableAsWrittenIsZero([v]);
  }

  /** The corrected count is zero exactly when no vehicle is available, unlike the count as written. */
  lemma {:induction false} CountAvailableZeroIff(vs: seq<Vehicle>)
    ensures CountAvailable(vs) == 0 <==> forall v :: v in vs ==> v.status != Available
  {
    if vs != [] {
      CountAvailableZeroIff(vs[1..]);
      assert forall v :: v in vs <==> v == vs[0] || v in vs[1..] by {
        assert vs == [vs[0]] + vs[1..];
      }
    }
  }

  /** Vehicles counted as sales of the window `r`: status "Vendido" and a sale date in `[start, end)`. */
  predicate SoldIn(v: Vehicle, r: Range) {
    v.status == Sold && v.saleDate.Some? && InRange(v.saleDate.value, r)
  }

  function SalesIn(vs: seq<Vehicle>, r: Range): (s: seq<Vehicle>)
    ensures |s| <= |vs|
    ensures forall v :: v in s <==> v in vs && SoldIn(v, r)
  {
    if vs == [] then []
    else if SoldIn(vs[0], r) then [vs[0]] + SalesIn(vs[1..], r)
    else SalesIn(vs[1..], r)
  }

  /** `coalesce(sum(sale_price), 0)`: a NULL sale price adds nothing. */
  function SumSalePrices(vs: seq<Vehicle>): int {
    if vs == [] then 0 else vs[0].salePrice.GetOr(0) + SumSalePrices(vs[1..])
  }

  function ExpenseDate(e: Expense): Instant { e.date }

  function StoreExpenseDate(e: StoreExpense): Instant { e.date }

  function ExpenseAmount(e: Expense): int { e.amount }

  function StoreExpenseAmount(e: StoreExpense): int { e.amount }

  /** The test `date >= start and date < end` on a row whose date `date` reads. */
  function DatedIn<T>(date: T -> Instant, r: Range): T -> bool {
    x => InRange(date(x), r)
  }

  /** The rows of a dated table that fall in the window `r`, in listing order. */
  function InWindow<T(!new)>(s: seq<T>, date: T -> Instant, r: Range): (w: seq<T>)
    ensures forall x :: x in w <==> x in s && InRange(date(x), r)
  {
    Filter(s, DatedIn(date, r))
  }

  datatype DashboardStats = DashboardStats(
    totalVehicles: int, totalAvailable: int, totalSold: int,
    totalExpenses: int, totalVehicleExpenses: int, totalStoreExpenses: int,
    currentMonthSales: int, currentMonthRevenue: int,
    previousMonthSales: int, previousMonthRevenue: int,
    currentMonthExpenses: int, previousMonthExpenses: int)

  function MonthSales(vs: seq<Vehicle>, now: Instant, offset: int): nat {
    |SalesIn(vs, GetMonthRange(now, offset))|
  }

  function MonthRevenue(vs: seq<Vehicle>, now: Instant, offset: int): int {
    SumSalePrices(SalesIn(vs, GetMonthRange(now, offset)))
  }

  /** Vehicle expenses plus store expenses dated in the window. */
  function MonthExpenses(es: seq<Expense>, ss: seq<StoreExpense>, now: Instant, offset: int): int {
    Sum(InWindow(es, ExpenseDate, GetMonthRange(now, offset)), ExpenseAmount)
    + Sum(InWindow(ss, StoreExpenseDate, GetMonthRange(now, offset)), StoreExpenseAmount)
  }

  /** The statistics as the query computes them, counting "available" against the mis-encoded literal. */
  function ComputeStats(vs: seq<Vehicle>, es: seq<Expense>, ss: seq<StoreExpense>, now: Instant): (r: DashboardStats)
    ensures r.totalExpenses == r.totalVehicleExpenses + r.totalStoreExpenses
    ensures 0 <= r.totalSold <= r.totalVehicles == |vs|
    ensures r.totalSold == |Filter(vs, IsSold)|
    ensures r.totalAvailable == 0
    ensures r.totalVehicleExpenses == Sum(es, ExpenseAmount) && r.totalStoreExpenses == Sum(ss, StoreExpenseAmount)
    ensures r.currentMonthSales == |SalesIn(vs, GetMonthRange(now, 0))|
    ensures r.previousMonthSales == |SalesIn(vs, GetMonthRange(now, -1))|
    ensures r.currentMonthRevenue == SumSalePrices(SalesIn(vs, GetMonthRange(now, 0)))
    ensures r.previousMonthRevenue == SumSalePrices(SalesIn(vs, GetMonthRange(now, -1)))
    ensures r.currentMonthExpenses == Sum(InWindow(es, ExpenseDate, GetMonthRange(now, 0)), ExpenseAmount)
      + Sum(InWindow(ss, StoreExpenseDate, GetMonthRange(now, 0)), StoreExpenseAmount)
    ensures r.previousMonthExpenses == Sum(InWindow(es, ExpenseDate, GetMonthRange(now, -1)), ExpenseAmount)
      + Sum(InWindow(ss, StoreExpenseDate, GetMonthRange(now, -1)), StoreExpenseAmount)
  {
    AvailableAsWrittenIsZero(vs);
    CountSoldIsFilter(vs);
    DashboardStats(
      |vs|, CountAvailableAsWritten(vs), CountSold(vs),
      Sum(es, ExpenseAmount) + Sum(ss, StoreExpenseAmount), Sum(es, ExpenseAmount), Sum(ss, StoreExpenseAmount),
      MonthSales(vs, now, 0), MonthRevenue(vs, now, 0),
      MonthSales(vs, now, -1), MonthRevenue(vs, now, -1),
      MonthExpenses(es, ss, now, 0), MonthExpenses(es, ss, now, -1))
  }

  /** The statistics with the "available" count corrected; every other figure is the same. */
  function ComputeStatsCorrected(vs: seq<Vehicle>, es: seq<Expense>, ss: seq<StoreExpense>, now: Instant): (r: DashboardStats)
    ensures r.totalAvailable == |Filter(vs, IsAvailable)|
    ensures r.totalAvailable == 0 <==> forall v :: v in vs ==> v.status != Available
    ensures 0 <= r.totalAvailable <= r.totalVehicles
    ensures r.(totalAvailable := 0) == ComputeStats(vs, es, ss, now)
  {
    CountAvailableIsFilter(vs);
    CountAvailableZeroIff(vs);
    ComputeStats(vs, es, ss, now).(totalAvailable := CountAvailable(vs))
  }

  /**
   * A vehicle is a sale of the month `offset` months from `now` exactly when it
   * is sold and its sale date falls in that calendar month.
   */
  lemma MonthSaleIff(vs: seq<Vehicle>, v: Vehicle, now: Instant, offset: int)
    requires v.saleDate.Some? ==> Valid(v.saleDate.value)
    ensures v in SalesIn(vs, GetMonthRange(now, offset)) <==>
      v in vs && v.status == Sold && v.saleDate.Some?
      && MonthIndex(v.saleDate.value) == now.year * 12 + now.month + offset
  {
    if v.saleDate.Some? {
      InMonthRange(v.saleDate.value, now, offset);
    }
  }

  lemma {:induction false} CountSoldBound(vs: seq<Vehicle>, r1: Range, r2: Range)
    requires forall v :: v in vs ==> !(SoldIn(v, r1) && SoldIn(v, r2))
    ensures |SalesIn(vs, r1)| + |SalesIn(vs, r2)| <= CountSold(vs)
  {
    if vs != [] {
      assert forall v :: v in vs[1..] ==> v in vs;
      CountSoldBound(vs[1..], r1, r2);
    }
  }

  /** This month's and last month's sales together never exceed the vehicles marked sold. */
  lemma TwoMonthSalesBound(vs: seq<Vehicle>, now: Instant)
    requires forall v :: v in vs && v.saleDate.Some? ==> Valid(v.saleDate.value)
    ensures MonthSales(vs, now, 0) + MonthSales(vs, now, -1) <= CountSold(vs)
  {
    forall v | v in vs ensures !(SoldIn(v, GetMonthRange(now, 0)) && SoldIn(v, GetMonthRange(now, -1))) {
      if v.saleDate.Some? {
        WindowsDisjoint(v.saleDate.value, now, 0, -1);
      }
    }
    CountSoldBound(vs, GetMonthRange(now, 0), GetMonthRange(now, -1));
  }

  /** With non-negative amounts, the part of a dated table in a window sums to between 0 and the whole. */
  lemma InWindowSumBound<T(!new)>(s: seq<T>, date: T -> Instant, r: Range, f: T -> int)
    requires forall x :: x in s ==> f(x) >= 0
    ensures 0 <= Sum(InWindow(s, date, r), f) <= Sum(s, f)
  {
    SumFilterBound(s, DatedIn(date, r), f);
  }

  /** With non-negative amounts, a month's expenses are part of the all-time total. */
  lemma MonthExpensesBound(es: seq<Expense>, ss: seq<StoreExpense>, now: Instant, offset: int)
    requires forall e :: e in es ==> e.amount >= 0
    requires forall e :: e in ss ==> e.amount >= 0
    ensures 0 <= MonthExpenses(es, ss, now, offset) <= Sum(es, ExpenseAmount) + Sum(ss, StoreExpenseAmount)
  {
    InWindowSumBound(es, ExpenseDate, GetMonthRange(now, offset), ExpenseAmount);
    InWindowSumBound(ss, StoreExpenseDate, GetMonthRange(now, offset), StoreExpenseAmount);
  }

  /** The sales of a listing split in two are the sales of the first part, then those of the second. */
  lemma {:induction false} SalesInAppend(a: seq<Vehicle>, b: seq<Vehicle>, r: Range)
    ensures SalesIn(a + b, r) == SalesIn(a, r) + SalesIn(b, r)
  {
    if a == [] {
      assert a + b == b;
    } else {
      assert (a + b)[1..] == a[1..] + b;
      SalesInAppend(a[1..], b, r);
    }
  }

  /** The revenue of a listing split in two is the sum of the two parts' revenues. */
  lemma {:induction false} SumSalePricesAppend(a: seq<Vehicle>, b: seq<Vehicle>)
    ensures SumSalePrices(a + b) == SumSalePrices(a) + SumSalePrices(b)
  {
    if a == [] {
      assert a + b == b;
    } else {
      assert (a + b)[1..] == a[1..] + b;
      SumSalePricesAppend(a[1..], b);
    }
  }

  /** A vehicle sold at `now` for `price` adds one sale and `price` of revenue to the current month. */
  lemma SaleAddsToCurrentMonth(vs: seq<Vehicle>, v: Vehicle, price: int, now: Instant)
    requires Valid(now)
    ensures var sold := v.(status := Sold, salePrice := Some(price), saleDate := Some(now));
      MonthSales(vs + [sold], now, 0) == MonthSales(vs, now, 0) + 1
      && MonthRevenue(vs + [sold], now, 0) == MonthRevenue(vs, now, 0) + price
  {
    var sold := v.(status := Sold, salePrice := Some(price), saleDate := Some(now));
    NowInCurrentMonth(now);
    SalesInAppend(vs, [sold], GetMonthRange(now, 0));
    SumSalePricesAppend(SalesIn(vs, GetMonthRange(now, 0)), [sold]);
    assert SalesIn([sold], GetMonthRange(now, 0)) == [sold];
  }
}
