/**
 * ui/HomeFragment.kt: the dashboard. It loads the ledger newest first, shows
 * the transactions of the selected period with their totals, the budget bar
 * for the current month, the expenses per category, and deletes a
 * transaction on request.
 */
module Home {
  import opened Wrappers
  import opened Ledger
  import opened Text
  import opened Seqs
  import opened Sorting
  import opened Grouping
  import opened Totals
  import opened DateUtils
  import opened KotlinNumbers
  import opened UtilPrefs
  import opened AppNotifications
  import opened BudgetAlert
  import opened HomeTransactionList

  datatype TimeRange = MONTH | YEAR | ALL_TIME

  /** Whether a transaction belongs to the period: this month of this year, this year, or always. */
  predicate InRange(cal: Calendar, now: int, range: TimeRange, t: Transaction)
  {
    match range
    case MONTH => IsCurrentMonth(cal, now, t.date)
    case YEAR => IsCurrentYear(cal, now, t.date)
    case ALL_TIME => true
  }

  function RangeTest(cal: Calendar, now: int, range: TimeRange): Transaction -> bool
  {
    (t: Transaction) => InRange(cal, now, range, t)
  }

  /** filterTransactionsByTimeRange: the transactions of the period, in their order; everything for ALL_TIME. */
  function FilterByTimeRange(cal: Calendar, now: int, range: TimeRange, ts: seq<Transaction>): (r: seq<Transaction>)
    ensures range == ALL_TIME ==> r == ts
    ensures IsSubsequence(r, ts)
    ensures forall i :: 0 <= i < |r| ==> InRange(cal, now, range, r[i])
    ensures forall i :: 0 <= i < |ts| && InRange(cal, now, range, ts[i]) ==> ts[i] in r
  {
    if range == ALL_TIME then
      FilterAll(RangeTest(cal, now, range), ts);
      ts
    else Filter(RangeTest(cal, now, range), ts)
  }

  /** The month's list is the year's list cut down to the month. */
  lemma MonthWithinYear(cal: Calendar, now: int, ts: seq<Transaction>)
    ensures FilterByTimeRange(cal, now, MONTH, ts)
      == Filter(RangeTest(cal, now, MONTH), FilterByTimeRange(cal, now, YEAR, ts))
  {
    FilterNested(RangeTest(cal, now, MONTH), RangeTest(cal, now, YEAR), ts);
  }

  datatype Summary = Summary(income: real, expenses: real, balance: real)

  /** updateSummaryData: the income and expense totals of the period and their difference. */
  function SummaryOf(ts: seq<Transaction>): (s: Summary)
    ensures s.income == Total(Incomes(ts)) && s.expenses == Total(Expenses(ts))
    ensures s.balance == s.income - s.expenses
    ensures s.income + s.expenses == Total(ts)
  {
    TotalSplits(ts);
    var income := Total(Incomes(ts));
    var expenses := Total(Expenses(ts));
    Summary(income, expenses, income - expenses)
  }

  /** An expense of the current month of the current year. */
  predicate IsMonthlyExpense(cal: Calendar, now: int, t: Transaction)
  {
    t.txType == EXPENSE && IsCurrentMonth(cal, now, t.date)
  }

  function MonthlyExpenseTest(cal: Calendar, now: int): Transaction -> bool
  {
    (t: Transaction) => IsMonthlyExpense(cal, now, t)
  }

  /** The spending the budget is measured against. */
  function MonthlyExpenses(cal: Calendar, now: int, ts: seq<Transaction>): real
  {
    Total(Filter(MonthlyExpenseTest(cal, now), ts))
  }

  /** The budget is measured against exactly the expenses the MONTH view lists. */
  lemma MonthlyExpensesOfMonthView(cal: Calendar, now: int, ts: seq<Transaction>)
    ensures MonthlyExpenses(cal, now, ts) == SummaryOf(FilterByTimeRange(cal, now, MONTH, ts)).expenses
  {
    var month := FilterByTimeRange(cal, now, MONTH, ts);
    FilterAgree(IsExpense, MonthlyExpenseTest(cal, now), month);
    FilterNested(MonthlyExpenseTest(cal, now), RangeTest(cal, now, MONTH), ts);
  }

  /** What the budget card shows: nothing set, or the percentage, the bar and the over-budget colour. */
  datatype BudgetView = NoBudget | Progress(percentage: int, progress: int, overBudget: bool)

  /** updateBudgetUI: the percentage is not capped, the bar is held to 0..100. */
  function BudgetViewOf(budget: real, monthly: real): (v: BudgetView)
    ensures v == NoBudget <==> budget <= 0.0
    ensures v.Progress? ==> 0 <= v.progress <= 100 && (v.overBudget <==> v.percentage > 100)
    ensures v.Progress? && 0 <= v.percentage <= 100 ==> v.progress == v.percentage
    ensures v.Progress? && v.percentage > 100 ==> v.progress == 100
    ensures v.Progress? && v.percentage < 0 ==> v.progress == 0
  {
    if budget <= 0.0 then NoBudget
    else
      var actual := ToInt(monthly * 100.0 / budget);
      var progress := if actual < 0 then 0 else if actual > 100 then 100 else actual;
      Progress(actual, progress, actual > 100)
  }

  /** The percentage label: "0%" without a budget, else the uncapped percentage. */
  function PercentText(v: BudgetView): (s: string)
    ensures v == NoBudget ==> s == "0%"
    ensures v.Progress? ==> s == IntToString(v.percentage) + "%"
  {
    match v
    case NoBudget => "0%"
    case Progress(p, _, _) => IntToString(p) + "%"
  }

  /** The bar's value: 0 without a budget. */
  function ProgressValue(v: BudgetView): (p: int)
    ensures v == NoBudget ==> p == 0
    ensures v.Progress? ==> p == v.progress
  {
    match v
    case NoBudget => 0
    case Progress(_, progress, _) => progress
  }

  /** The red colour is shown only when the month's spending is above the budget. */
  lemma OverBudgetMeansExceeded(budget: real, monthly: real)
    requires BudgetViewOf(budget, monthly).Progress? && BudgetViewOf(budget, monthly).overBudget
    ensures monthly > budget
  {
    var x := monthly * 100.0 / budget;
    if x <= 100.0 {
      ToIntMonotone(x, 100.0);
    }
    ScaledAbove(monthly, budget, x);
  }

  lemma ScaledAbove(monthly: real, budget: real, x: real)
    requires budget > 0.0 && x == monthly * 100.0 / budget && x > 100.0
    ensures monthly > budget
  {
    assert x * budget == monthly * 100.0;
  }

  function CategoryKey(): Transaction -> string
  {
    (t: Transaction) => t.category
  }

  /** Each category spent on, in order of first occurrence, with its expense total (groupBy, sum). */
  function CategoryTotals(ts: seq<Transaction>): seq<(string, real)>
  {
    GroupTotals(CategoryKey(), Amount, Expenses(ts), Keys(CategoryKey(), Expenses(ts)))
  }

  /** The same entries from the largest total down (sortedByDescending). */
  function ExpensesByCategory(ts: seq<Transaction>): seq<(string, real)>
  {
    Sort(DescendingReal(Second), CategoryTotals(ts))
  }

  /** The entries run from the largest total down. */
  lemma ExpensesByCategorySorted(ts: seq<Transaction>)
    ensures SortedBy(DescendingReal(Second), ExpensesByCategory(ts))
  {
    DescendingRealIsPreorder(Second<string>);
    SortSorts(DescendingReal(Second), CategoryTotals(ts));
  }

  /** Each entry carries the expense total of its category. */
  lemma ExpensesByCategoryTotals(ts: seq<Transaction>)
    ensures var r := ExpensesByCategory(ts);
      forall i :: 0 <= i < |r| ==> r[i].1 == Total(Group(CategoryKey(), Expenses(ts), r[i].0))
  {
    var totals := CategoryTotals(ts);
    var r := ExpensesByCategory(ts);
    SortPermutes(DescendingReal(Second), totals);
    forall i | 0 <= i < |r|
      ensures r[i].1 == Total(Group(CategoryKey(), Expenses(ts), r[i].0))
    {
      assert r[i] in multiset(totals);
    }
  }

  /** No category is listed twice, and every category an expense of the list is filed under is listed. */
  lemma ExpensesByCategoryKeys(ts: seq<Transaction>)
    ensures var r := ExpensesByCategory(ts);
      && (forall i, j :: 0 <= i < j < |r| ==> r[i].0 != r[j].0)
      && (forall i :: 0 <= i < |ts| && ts[i].txType == EXPENSE ==> HasKey(r, ts[i].category))
  {
    var es := Expenses(ts);
    var totals := CategoryTotals(ts);
    var r := ExpensesByCategory(ts);
    SortPermutes(DescendingReal(Second), totals);
    GroupTotalsKeyed(CategoryKey(), Amount, es);
    KeyedPermutation(totals, r);
    forall i | 0 <= i < |ts| && ts[i].txType == EXPENSE
      ensures HasKey(r, ts[i].category)
    {
      assert ts[i] in es;
      assert HasKey(totals, CategoryKey()(ts[i]));
    }
  }

  /** The entries add up to the list's expense total. */
  lemma ExpensesByCategorySum(ts: seq<Transaction>)
    ensures SumBy(Second, ExpensesByCategory(ts)) == Total(Expenses(ts))
  {
    var es := Expenses(ts);
    var totals := CategoryTotals(ts);
    SortKeepsSum(DescendingReal(Second), Second, totals);
    GroupTotalsAddUp(CategoryKey(), Amount, es, Keys(CategoryKey(), es));
    GroupSumsAddUp(CategoryKey(), Amount, es);
  }

  datatype CategorySpending = CategorySpending(category: string, emoji: string, amount: real, percentage: int)

  /** The emoji of the first category with that name, or none. */
  function EmojiFor(categories: seq<Category>, name: string): (e: string)
    ensures (forall i :: 0 <= i < |categories| ==> categories[i].name != name) ==> e == ""
    ensures forall k :: 0 <= k < |categories| && categories[k].name == name ==>
      (forall j :: 0 <= j < k ==> categories[j].name != name) ==> e == categories[k].emoji
  {
    var k := IndexOfFirst((c: Category) => c.name == name, categories);
    if k == -1 then "" else categories[k].emoji
  }

  function SpendingItems(sums: seq<(string, real)>, total: real, categories: seq<Category>): (r: seq<CategorySpending>)
    requires total > 0.0
    ensures |r| == |sums|
    ensures forall i :: 0 <= i < |sums| ==>
      r[i] == CategorySpending(sums[i].0, EmojiFor(categories, sums[i].0), sums[i].1, ToInt(sums[i].1 * 100.0 / total))
  {
    if sums == [] then []
    else
      var head := CategorySpending(sums[0].0, EmojiFor(categories, sums[0].0), sums[0].1, ToInt(sums[0].1 * 100.0 / total));
      var rest := SpendingItems(sums[1..], total, categories);
      assert forall i :: 0 < i < |sums| ==> sums[1..][i - 1] == sums[i];
      [head] + rest
  }

  /** updateCategorySummary: nothing when the period's expenses are not positive, else one row per category. */
  function CategorySummary(ts: seq<Transaction>, categories: seq<Category>): seq<CategorySpending>
  {
    var sums := ExpensesByCategory(ts);
    var total := SumBy(Second, sums);
    if total <= 0.0 then [] else SpendingItems(sums, total, categories)
  }

  /**
   * The summary is empty exactly when the expense total is not positive or
   * nothing was spent; otherwise its rows are those of `SpendingItems` over
   * the totals largest first, with percentages of the expense total.
   */
  lemma CategorySummaryRows(ts: seq<Transaction>, categories: seq<Category>)
    ensures var r, sums, total := CategorySummary(ts, categories), ExpensesByCategory(ts), Total(Expenses(ts));
      && (r == [] <==> total <= 0.0 || sums == [])
      && (total > 0.0 ==> r == SpendingItems(sums, total, categories))
  {
    ExpensesByCategorySum(ts);
  }

  function IdIsNot(id: string): Transaction -> bool
  {
    (t: Transaction) => t.id != id
  }

  /** The list without the transactions carrying `id`, the rest in order. */
  function WithoutId(ts: seq<Transaction>, id: string): (r: seq<Transaction>)
    ensures IsSubsequence(r, ts)
    ensures forall i :: 0 <= i < |r| ==> r[i].id != id
    ensures forall i :: 0 <= i < |ts| && ts[i].id != id ==> ts[i] in r
    ensures (forall i :: 0 <= i < |ts| ==> ts[i].id != id) ==> r == ts
  {
    if forall i :: 0 <= i < |ts| ==> ts[i].id != id then
      FilterAll(IdIsNot(id), ts);
      Filter(IdIsNot(id), ts)
    else Filter(IdIsNot(id), ts)
  }

  function DateOf(t: Transaction): int { t.date }

  /** The dashboard's state: the ledger as loaded and the selected period. */
  class HomeScreen {
    var transactions: seq<Transaction>
    var selectedTimeRange: TimeRange
    /** How many times the period's views were recomputed. */
    ghost var refreshes: nat

    constructor ()
      ensures transactions == [] && selectedTimeRange == MONTH && refreshes == 0
    {
      transactions := [];
      selectedTimeRange := MONTH;
      refreshes := 0;
    }

    /**
     * loadData: the ledger newest first, the views recomputed, and the
     * budget check run on this month's expenses.
     */
    method LoadData(prefs: Prefs, shade: Shade, format: (real, string) -> string, cal: Calendar, now: int)
      requires prefs.Valid() && prefs.bound
      modifies this, shade
      ensures transactions == Sort(DescendingInt(DateOf), prefs.LoadTransactions())
      ensures multiset(transactions) == multiset(prefs.LoadTransactions())
      ensures SortedBy(DescendingInt(DateOf), transactions)
      ensures selectedTimeRange == old(selectedTimeRange) && refreshes == old(refreshes) + 1
      ensures var monthly := MonthlyExpenses(cal, now, transactions);
        && (!(prefs.GetBudget() > 0.0 && monthly > prefs.GetBudget()) ==> shade.shown == old(shade.shown))
        && (prefs.GetBudget() > 0.0 && monthly > prefs.GetBudget() && shade.directDelivers ==>
             shade.shown == old(shade.shown)[BudgetNotificationId := Notice("Monthly Budget Alert",
               AlertText(AlertPercentage(monthly, prefs.GetBudget()), monthly, prefs.GetBudget(), prefs.GetCurrency(), format))])
        && (prefs.GetBudget() > 0.0 && monthly > prefs.GetBudget() && !shade.directDelivers ==>
             shade.shown == old(shade.shown))
    {
      transactions := Sort(DescendingInt(DateOf), prefs.LoadTransactions());
      SortPermutes(DescendingInt(DateOf), prefs.LoadTransactions());
      DescendingIntIsPreorder(DateOf);
      SortSorts(DescendingInt(DateOf), prefs.LoadTransactions());
      refreshes := refreshes + 1;
      CheckBudgetStatus(shade, prefs, format, MonthlyExpenses(cal, now, transactions), prefs.GetBudget());
    }

    /**
     * deleteTransaction: the stored ledger without that transaction's id,
     * followed by loadData, which re-reads the store and reruns the budget
     * check on what is left.
     */
    method DeleteTransaction(prefs: Prefs, shade: Shade, format: (real, string) -> string, cal: Calendar, now: int, id: string)
      requires prefs.Valid() && prefs.bound
      modifies this, prefs, shade
      ensures prefs.Valid() && prefs.bound
      ensures prefs.LoadTransactions() == WithoutId(old(prefs.LoadTransactions()), id)
      ensures prefs.LoadCategories() == old(prefs.LoadCategories()) && prefs.GetBudget() == old(prefs.GetBudget())
      ensures prefs.GetCurrency() == old(prefs.GetCurrency())
      ensures prefs.writes == old(prefs.writes) + [KeyTransactions]
      ensures transactions == Sort(DescendingInt(DateOf), prefs.LoadTransactions())
      ensures multiset(transactions) == multiset(WithoutId(old(prefs.LoadTransactions()), id))
      ensures forall i :: 0 <= i < |transactions| ==> transactions[i].id != id
      ensures selectedTimeRange == old(selectedTimeRange) && refreshes == old(refreshes) + 1
      ensures var monthly := MonthlyExpenses(cal, now, transactions);
        && (!(prefs.GetBudget() > 0.0 && monthly > prefs.GetBudget()) ==> shade.shown == old(shade.shown))
        && (prefs.GetBudget() > 0.0 && monthly > prefs.GetBudget() && shade.directDelivers ==>
             shade.shown == old(shade.shown)[BudgetNotificationId := Notice("Monthly Budget Alert",
               AlertText(AlertPercentage(monthly, prefs.GetBudget()), monthly, prefs.GetBudget(), prefs.GetCurrency(), format))])
        && (prefs.GetBudget() > 0.0 && monthly > prefs.GetBudget() && !shade.directDelivers ==>
             shade.shown == old(shade.shown))
    {
      var updated := WithoutId(prefs.LoadTransactions(), id);
      WritesAreIndependent(prefs.entries, updated, [], 0.0, "");
      prefs.SaveTransactions(updated);
      LoadData(prefs, shade, format, cal, now);
      forall i | 0 <= i < |transactions|
        ensures transactions[i].id != id
      {
        assert transactions[i] in multiset(updated);
      }
    }

    /** selectTab: the views are recomputed only when the period changes. */
    method SelectTab(range: TimeRange)
      modifies this
      ensures selectedTimeRange == range && transactions == old(transactions)
      ensures refreshes == if range == old(selectedTimeRange) then old(refreshes) else old(refreshes) + 1
    {
      if selectedTimeRange != range {
        selectedTimeRange := range;
        refreshes := refreshes + 1;
      }
    }

    /** The transactions of the selected period. */
    function Filtered(cal: Calendar, now: int): seq<Transaction>
      reads this
    {
      FilterByTimeRange(cal, now, selectedTimeRange, transactions)
    }

    /**
     * The recent list: the first ten of the period's transactions (the
     * newest, since the ledger is held newest first), grouped by date.
     */
    function RecentList(cal: Calendar, now: int, zone: int -> int, today: int, yearOf: int -> int): (items: seq<ListItem>)
      reads this
      ensures |TransactionsOf(items)| <= 10
      ensures multiset(TransactionsOf(items)) == multiset(Take(Filtered(cal, now), 10))
    {
      var recent := Take(Filtered(cal, now), 10);
      GroupedKeepsTransactions(zone, today, yearOf, recent);
      assert |multiset(TransactionsOf(Grouped(zone, today, yearOf, recent)))| == |multiset(recent)|;
      Grouped(zone, today, yearOf, recent)
    }
  }
}
