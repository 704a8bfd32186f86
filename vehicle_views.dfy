/**
 * What the vehicle pages derive from a vehicle. The detail page shows the
 * sale value, the expense total and the net profit; both pages hide the
 * status selector and the sell action of a sold vehicle; the list page maps
 * its status filter onto the listing filters.
 */
module VehicleViews {
  import opened Wrappers
  import opened Tables
  import opened Schema
  import opened Storage

  function ExpenseAmount(e: Expense): int { e.amount }

  /** `vehicle.expenses.reduce((sum, e) => sum + e.amount, 0)`. */
  function TotalExpenses(d: VehicleWithDetails): int {
    Sum(d.expenses, ExpenseAmount)
  }

  /**
   * `vehicle.salePrice || vehicle.price || 0`: the sale price when it is set
   * and not zero, else the asking price when it is set and not zero, else 0.
   */
  function SaleValue(v: Vehicle): (r: int)
    ensures TruthyId(v.salePrice) ==> r == v.salePrice.value
    ensures !TruthyId(v.salePrice) && TruthyId(v.price) ==> r == v.price.value
    ensures r == 0 <==> !TruthyId(v.salePrice) && !TruthyId(v.price)
  {
    if TruthyId(v.salePrice) then v.salePrice.value
    else if TruthyId(v.price) then v.price.value
    else 0
  }

  /** `saleValue - totalExpenses`; nothing keeps it from going below zero. */
  function NetProfit(d: VehicleWithDetails): int {
    SaleValue(d.vehicle) - TotalExpenses(d)
  }

  /** Each expense recorded against the vehicle lowers its net profit by exactly its amount. */
  lemma ExpenseLowersProfit(d: VehicleWithDetails, e: Expense)
    ensures NetProfit(d.(expenses := d.expenses + [e])) == NetProfit(d) - e.amount
  {
    SumAppend(d.expenses, [e], ExpenseAmount);
    assert Sum([e], ExpenseAmount) == e.amount;
  }

  /** With no expenses the profit is the sale value; with non-negative expenses it never exceeds it. */
  lemma {:induction false} ProfitBoundedBySaleValue(d: VehicleWithDetails)
    requires forall e :: e in d.expenses ==> e.amount >= 0
    ensures NetProfit(d) <= SaleValue(d.vehicle)
    ensures d.expenses == [] ==> NetProfit(d) == SaleValue(d.vehicle)
  {
    SumNonNegative(d.expenses);
  }

  lemma {:induction false} SumNonNegative(es: seq<Expense>)
    requires forall e :: e in es ==> e.amount >= 0
    ensures Sum(es, ExpenseAmount) >= 0
  {
    if es != [] {
      assert es[0] in es;
      SumNonNegative(es[1..]);
    }
  }

  /** A vehicle with neither a sale price nor an asking price shows a loss as soon as it has a positive expense total. */
  lemma UnpricedVehicleLoses(d: VehicleWithDetails)
    requires !TruthyId(d.vehicle.salePrice) && !TruthyId(d.vehicle.price)
    requires TotalExpenses(d) > 0
    ensures NetProfit(d) < 0
  {
  }

  // ---- sold-state gating ----

  /** `isSold`: a sold vehicle gets a fixed badge in place of the selector and no sell action. */
  predicate IsSold(v: Vehicle) {
    v.status == Sold
  }

  /** The option test: every status but "Vendido". */
  predicate Selectable(s: VehicleStatus) {
    s != Sold
  }

  /** The selector's options: `VEHICLE_STATUS.filter(s => s !== "Vendido")`. */
  function StatusOptions(): (r: seq<VehicleStatus>)
    ensures forall s :: s in r <==> s != Sold
    ensures IsSubsequence(r, AllStatuses)
  {
    StatusEnumeration();
    FilterIsSubsequence(AllStatuses, Selectable);
    Filter(AllStatuses, Selectable)
  }

  /** The status options are the other four statuses, in enumeration order. */
  lemma StatusOptionsExact()
    ensures StatusOptions() == [Available, InMaintenance, AwaitingPreparation, Reserved]
  {
    var rest := [InMaintenance, AwaitingPreparation, Reserved];
    assert AllStatuses == [Available] + [Sold] + rest;
    FilterDropsOne([Available], Sold, rest, Selectable);
  }

  /** The selector is shown iff the vehicle is not sold, and then it can display the current status. */
  lemma SelectorShowsCurrentStatus(v: Vehicle)
    ensures !IsSold(v) <==> v.status in StatusOptions()
  {
  }

  /** The row target of the sell action: id, `brand model`, and `price || 0`. */
  datatype SellTarget = SellTarget(id: int, name: string, price: int)

  /** The sell action exists only on rows that are not sold. */
  function SellAction(v: Vehicle): (r: Option<SellTarget>)
    ensures r.Some? <==> !IsSold(v)
    ensures r.Some? ==> r.value.id == v.id && r.value.name == v.brand + " " + v.model
    ensures r.Some? ==> r.value.price == (if TruthyId(v.price) then v.price.value else 0)
  {
    if IsSold(v) then None
    else Some(SellTarget(v.id, v.brand + " " + v.model, v.price.GetOr(0)))
  }

  // ---- listing filters ----

  /** The list page's filters: `"all"` becomes no status filter; any other choice is passed on as it is. */
  function ListingFilters(search: string, statusFilter: string): (f: VehicleFilters)
    ensures f.ownerId.None? && f.search == Some(search)
    ensures f.status.None? <==> statusFilter == "all"
    ensures f.status.Some? ==> f.status.value == statusFilter
  {
    VehicleFilters(if statusFilter == "all" then None else Some(statusFilter), None, Some(search))
  }

  /** Under `"all"`, only the search term restricts the listing; with no term every vehicle is listed. */
  lemma AllStatusesListed(v: Vehicle, search: string)
    ensures MatchesFilters(v, ListingFilters(search, "all")) <==> search == "" || MentionsTerm(v, search)
  {
  }

  lemma StatusLabelInjective(a: VehicleStatus, b: VehicleStatus)
    ensures StatusLabel(a) == StatusLabel(b) <==> a == b
  {
    ParseStatusRoundTrip(a, "");
    ParseStatusRoundTrip(b, "");
  }

  /** A filter on one status label lists exactly the vehicles with that status. */
  lemma StatusListing(v: Vehicle, s: VehicleStatus)
    ensures MatchesFilters(v, VehicleFilters(Some(StatusLabel(s)), None, None)) <==> v.status == s
  {
    StatusLabelInjective(v.status, s);
    assert StatusLabel(s) != "" by {
      match s
      case Available =>
      case Sold =>
      case InMaintenance =>
      case AwaitingPreparation =>
      case Reserved =>
    }
  }

  /** The dashboard lists the vehicles requested with status "Disponível": exactly the available ones. */
  const DashboardListing: VehicleFilters := VehicleFilters(Some("Disponível"), None, None)

  /** The financial report lists the vehicles requested with status "Vendido": exactly the sold ones. */
  const SoldListing: VehicleFilters := VehicleFilters(Some("Vendido"), None, None)

  lemma PageListings(v: Vehicle)
    ensures MatchesFilters(v, DashboardListing) <==> v.status == Available
    ensures MatchesFilters(v, SoldListing) <==> v.status == Sold
  {
    StatusListing(v, Available);
    StatusListing(v, Sold);
  }
}
