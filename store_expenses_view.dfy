/**
 * The store-expenses page: the list narrowed by a search term and a
 * category, the two totals it shows, and the creation form's guard.
 */
module StoreExpensesView {
  import opened Wrappers
  import opened Text
  import opened Tables
  import opened Schema

  /** The search: empty, or found ignoring case in the description or the category label. */
  predicate MatchesSearch(e: StoreExpense, search: string) {
    search == ""
    || Contains(Lower(e.description), Lower(search))
    || Contains(Lower(CategoryLabel(e.category)), Lower(search))
  }

  /** The category filter: `"all"`, or exactly the expense's category label. */
  predicate MatchesCategory(e: StoreExpense, categoryFilter: string) {
    categoryFilter == "all" || CategoryLabel(e.category) == categoryFilter
  }

  predicate Kept(e: StoreExpense, search: string, categoryFilter: string) {
    MatchesSearch(e, search) && MatchesCategory(e, categoryFilter)
  }

  /** `filtered`: the loaded expenses that pass both tests, in their order; nothing while loading. */
  function Filtered(expenses: Option<seq<StoreExpense>>, search: string, categoryFilter: string): (r: seq<StoreExpense>)
    ensures expenses.None? ==> r == []
    ensures expenses.Some? ==> IsSubsequence(r, expenses.value)
    ensures forall e :: e in r <==> expenses.Some? && e in expenses.value && Kept(e, search, categoryFilter)
  {
    if expenses.None? then []
    else
      FilterIsSubsequence(expenses.value, e => Kept(e, search, categoryFilter));
      Filter(expenses.value, e => Kept(e, search, categoryFilter))
  }

  function Amount(e: StoreExpense): int { e.amount }

  /** `totalFiltered`. */
  function TotalFiltered(filtered: seq<StoreExpense>): int {
    Sum(filtered, Amount)
  }

  /** `totalAll`: the sum of every loaded expense, 0 while loading. */
  function TotalAll(expenses: Option<seq<StoreExpense>>): int {
    if expenses.None? then 0 else Sum(expenses.value, Amount)
  }

  /** With no search term and the `"all"` category every loaded expense is listed and both totals agree. */
  lemma NoFilterKeepsAll(es: seq<StoreExpense>)
    ensures Filtered(Some(es), "", "all") == es
    ensures TotalFiltered(Filtered(Some(es), "", "all")) == TotalAll(Some(es))
  {
    FilterKeepsAll(es, e => Kept(e, "", "all"));
  }

  /** With non-negative amounts the filtered total lies between 0 and the overall total. */
  lemma FilteredTotalBound(expenses: Option<seq<StoreExpense>>, search: string, categoryFilter: string)
    requires expenses.Some? ==> forall e :: e in expenses.value ==> e.amount >= 0
    ensures 0 <= TotalFiltered(Filtered(expenses, search, categoryFilter)) <= TotalAll(expenses)
  {
    if expenses.Some? {
      SumFilterBound(expenses.value, e => Kept(e, search, categoryFilter), Amount);
    }
  }

  /** The position of a category in the enumeration. */
  function CategoryIndex(c: StoreExpenseCategory): (i: nat)
    ensures i < |AllCategories| && AllCategories[i] == c
  {
    match c
    case Rent => 0
    case Internet => 1
    case Water => 2
    case Energy => 3
    case CleaningProducts => 4
    case OfficeSupplies => 5
    case Telephone => 6
    case Insurance => 7
    case Taxes => 8
    case Salaries => 9
    case Others => 10
  }

  lemma CategoryLabelInjective(a: StoreExpenseCategory, b: StoreExpenseCategory)
    ensures CategoryLabel(a) == CategoryLabel(b) <==> a == b
  {
    CategoryEnumeration();
    var i, j := CategoryIndex(a), CategoryIndex(b);
    if i < j {
      assert CategoryLabel(AllCategories[i]) != CategoryLabel(AllCategories[j]);
    } else if j < i {
      assert CategoryLabel(AllCategories[j]) != CategoryLabel(AllCategories[i]);
    }
  }

  /** Choosing a category in the filter lists exactly the expenses of that category. */
  lemma CategoryFilterExact(es: seq<StoreExpense>, c: StoreExpenseCategory, e: StoreExpense)
    ensures e in Filtered(Some(es), "", CategoryLabel(c)) <==> e in es && e.category == c
  {
    CategoryLabelInjective(e.category, c);
    assert CategoryLabel(c) != "all" by {
      match c
      case Rent =>
      case Internet =>
      case Water =>
      case Energy =>
      case CleaningProducts =>
      case OfficeSupplies =>
      case Telephone =>
      case Insurance =>
      case Taxes =>
      case Salaries =>
      case Others =>
    }
  }

  // ---- the creation form ----

  /** What the form sends: the description, the amount in cents and the chosen category text. */
  datatype StoreExpenseRequest = StoreExpenseRequest(description: string, amount: int, category: string)

  class StoreExpenseForm {
    var description: string
    var amount: string
    var category: string

    constructor ()
      ensures description == "" && amount == "" && category == ""
    {
      description := "";
      amount := "";
      category := "";
    }

    /**
     * `handleCreate`: `cents` is the entered amount in cents. Nothing is sent
     * when it is not positive or no category is chosen; otherwise the
     * description, the amount and the category go out as they are.
     */
    method Submit(cents: int) returns (r: Option<StoreExpenseRequest>)
      ensures r.None? <==> cents <= 0 || category == ""
      ensures r.Some? ==> r.value == StoreExpenseRequest(description, cents, category)
    {
      if cents <= 0 || category == "" {
        return None;
      }
      r := Some(StoreExpenseRequest(description, cents, category));
    }

    /** On success the three fields are emptied. */
    method Succeeded()
      modifies this
      ensures description == "" && amount == "" && category == ""
    {
      description := "";
      amount := "";
      category := "";
    }
  }

  /** Right after a success nothing can be sent until a category is chosen again. */
  method SubmitAfterSuccess(form: StoreExpenseForm, cents: int) returns (r: Option<StoreExpenseRequest>)
    modifies form
    ensures r.None?
  {
    form.Succeeded();
    r := form.Submit(cents);
  }
}
