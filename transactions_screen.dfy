/**
 * ui/TransactionsFragment.kt: the full transaction list. It keeps the ledger
 * newest first, shows the part that falls in the selected period (or an
 * empty-state text), and deletes by id from the list it holds.
 */
module TransactionsScreen {
  import opened Ledger
  import opened Seqs
  import opened Text
  import opened Sorting
  import opened DateUtils
  import opened UtilPrefs
  import Home

  datatype TimeFilter = CURRENT_MONTH | THIS_YEAR | ALL_TIME

  /** The period test of applyFilter, through DateUtils. */
  predicate Passes(cal: Calendar, now: int, f: TimeFilter, t: Transaction)
  {
    match f
    case CURRENT_MONTH => IsCurrentMonth(cal, now, t.date)
    case THIS_YEAR => IsCurrentYear(cal, now, t.date)
    case ALL_TIME => true
  }

  function PassTest(cal: Calendar, now: int, f: TimeFilter): Transaction -> bool
  {
    (t: Transaction) => Passes(cal, now, f, t)
  }

  /** applyFilter: the transactions of the period in list order; the whole list for ALL_TIME. */
  function Filtered(cal: Calendar, now: int, f: TimeFilter, ts: seq<Transaction>): (r: seq<Transaction>)
    ensures f == ALL_TIME ==> r == ts
    ensures IsSubsequence(r, ts)
    ensures forall i :: 0 <= i < |r| ==> Passes(cal, now, f, r[i])
    ensures forall i :: 0 <= i < |ts| && Passes(cal, now, f, ts[i]) ==> ts[i] in r
  {
    match f
    case ALL_TIME => FilterAll(PassTest(cal, now, f), ts); ts
    case _ => Filter(PassTest(cal, now, f), ts)
  }

  /** The home screen's tab for the same period. */
  function HomeTab(f: TimeFilter): Home.TimeRange
  {
    match f
    case CURRENT_MONTH => Home.MONTH
    case THIS_YEAR => Home.YEAR
    case ALL_TIME => Home.ALL_TIME
  }

  /** This screen and the home screen list the same transactions for the same period. */
  lemma {:induction false} MatchesHomeTabs(cal: Calendar, now: int, f: TimeFilter, ts: seq<Transaction>)
    ensures Filtered(cal, now, f, ts) == Home.FilterByTimeRange(cal, now, HomeTab(f), ts)
  {
    if f != ALL_TIME {
      FilterAgree(PassTest(cal, now, f), Home.RangeTest(cal, now, HomeTab(f)), ts);
    }
  }

  const AddHint := "\nTap + to add a new transaction"

  /** The empty-state text of each period: its own first line, then the hint to add one. */
  function EmptyText(f: TimeFilter): (s: string)
    ensures EndsWith(s, AddHint)
  {
    var head := match f
      case CURRENT_MONTH => "No transactions this month"
      case THIS_YEAR => "No transactions this year"
      case ALL_TIME => "No transactions yet";
    AffixesOfConcat(head, [], AddHint);
    assert head + [] + AddHint == head + AddHint;
    head + AddHint
  }

  /** No two periods share an empty-state text. */
  lemma EmptyTextsDiffer(f: TimeFilter, g: TimeFilter)
    requires f != g
    ensures EmptyText(f) != EmptyText(g)
  {
    assert |EmptyText(f)| != |EmptyText(g)|;
  }

  /** The row's icon and caption: the category's emoji and name, or a money bag and the stored name. */
  function RowIcon(cs: seq<Category>, t: Transaction): (r: (string, string))
    ensures (forall i :: 0 <= i < |cs| ==> cs[i].name != t.category) ==> r == ("\U{1F4B0}", t.category)
    ensures forall k :: 0 <= k < |cs| && cs[k].name == t.category ==>
      (forall j :: 0 <= j < k ==> cs[j].name != t.category) ==>
      r == (if cs[k].emoji != "" then (cs[k].emoji, cs[k].name) else ("\U{1F4B0}", t.category))
    ensures r.1 == t.category
  {
    var k := IndexOfFirst((c: Category) => c.name == t.category, cs);
    if k >= 0 && cs[k].emoji != "" then (cs[k].emoji, cs[k].name) else ("\U{1F4B0}", t.category)
  }

  /** The row's amount: an expense is shown with a minus before the formatted amount. */
  function AmountText(t: Transaction, formatted: string): (r: string)
    ensures t.txType == EXPENSE ==> r == "-" + formatted
    ensures t.txType == INCOME ==> r == formatted
  {
    if t.txType == EXPENSE then "-" + formatted else formatted
  }

  function DateOf(t: Transaction): int { t.date }

  /** Deleting from the newest-first copy removes exactly the records of that id from the store's contents. */
  lemma DeleteRemovesOnlyThatId(stored: seq<Transaction>, id: string)
    ensures multiset(Home.WithoutId(Sort(DescendingInt(DateOf), stored), id)) == multiset(Home.WithoutId(stored, id))
  {
    var sorted := Sort(DescendingInt(DateOf), stored);
    SortPermutes(DescendingInt(DateOf), stored);
    forall x
      ensures multiset(Home.WithoutId(sorted, id))[x] == multiset(Home.WithoutId(stored, id))[x]
    {
      FilterCount(Home.IdIsNot(id), sorted, x);
      FilterCount(Home.IdIsNot(id), stored, x);
    }
  }

  /** The fragment's state. */
  class TransactionsList {
    /** The ledger, newest first. */
    var transactions: seq<Transaction>
    var filtered: seq<Transaction>
    var currentFilter: TimeFilter
    /** The rows the adapter shows; kept as they were while the empty state is up. */
    var items: seq<Transaction>
    /** The empty-state text, when it is visible. */
    var emptyText: string
    var emptyVisible: bool

    constructor ()
      ensures transactions == [] && filtered == [] && items == [] && currentFilter == CURRENT_MONTH
      ensures !emptyVisible
    {
      transactions := [];
      filtered := [];
      currentFilter := CURRENT_MONTH;
      items := [];
      emptyText := "";
      emptyVisible := false;
    }

    /** applyFilter and updateEmptyState. */
    method ApplyFilter(cal: Calendar, now: int)
      modifies this
      ensures transactions == old(transactions) && currentFilter == old(currentFilter)
      ensures filtered == Filtered(cal, now, currentFilter, transactions)
      ensures emptyVisible <==> filtered == []
      ensures emptyVisible ==> emptyText == EmptyText(currentFilter) && items == old(items)
      ensures !emptyVisible ==> items == filtered
    {
      filtered := Filtered(cal, now, currentFilter, transactions);
      if filtered == [] {
        emptyText := EmptyText(currentFilter);
        emptyVisible := true;
      } else {
        emptyVisible := false;
        items := filtered;
      }
    }

    /** loadTransactions: the store's ledger newest first, then the filter. */
    method LoadTransactions(prefs: Prefs, cal: Calendar, now: int)
      requires prefs.Valid() && prefs.bound
      modifies this
      ensures transactions == Sort(DescendingInt(DateOf), prefs.LoadTransactions())
      ensures multiset(transactions) == multiset(prefs.LoadTransactions())
      ensures SortedBy(DescendingInt(DateOf), transactions)
      ensures currentFilter == old(currentFilter)
      ensures filtered == Filtered(cal, now, currentFilter, transactions)
      ensures emptyVisible <==> filtered == []
      ensures !emptyVisible ==> items == filtered
    {
      transactions := Sort(DescendingInt(DateOf), prefs.LoadTransactions());
      SortPermutes(DescendingInt(DateOf), prefs.LoadTransactions());
      DescendingIntIsPreorder(DateOf);
      SortSorts(DescendingInt(DateOf), prefs.LoadTransactions());
      ApplyFilter(cal, now);
    }

    /** selectTab: the list is refiltered only when the period changes. */
    method SelectTab(f: TimeFilter, cal: Calendar, now: int)
      modifies this
      ensures currentFilter == f && transactions == old(transactions)
      ensures f == old(currentFilter) ==> filtered == old(filtered) && items == old(items)
      ensures f != old(currentFilter) ==> filtered == Filtered(cal, now, f, transactions)
    {
      if currentFilter != f {
        currentFilter := f;
        ApplyFilter(cal, now);
      }
    }

    /**
     * deleteTransaction: the held list without that id is written back, so
     * the store ends up newest first when the held list is (as loading leaves
     * it), and the screen reloads.
     */
    method DeleteTransaction(prefs: Prefs, id: string, cal: Calendar, now: int)
      requires prefs.Valid() && prefs.bound
      modifies this, prefs
      ensures prefs.Valid() && prefs.bound
      ensures prefs.LoadTransactions() == Home.WithoutId(old(transactions), id)
      ensures SortedBy(DescendingInt(DateOf), old(transactions)) ==> SortedBy(DescendingInt(DateOf), prefs.LoadTransactions())
      ensures prefs.writes == old(prefs.writes) + [KeyTransactions]
      ensures prefs.LoadCategories() == old(prefs.LoadCategories()) && prefs.GetBudget() == old(prefs.GetBudget())
      ensures transactions == Sort(DescendingInt(DateOf), prefs.LoadTransactions())
      ensures filtered == Filtered(cal, now, currentFilter, transactions)
    {
      var updated := Home.WithoutId(transactions, id);
      if SortedBy(DescendingInt(DateOf), transactions) {
        FilterKeepsSorted(DescendingInt(DateOf), Home.IdIsNot(id), transactions);
      }
      WritesAreIndependent(prefs.entries, updated, [], 0.0, "");
      prefs.SaveTransactions(updated);
      LoadTransactions(prefs, cal, now);
    }
  }
}
