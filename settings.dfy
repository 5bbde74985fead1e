/**
 * ui/SettingsFragment.kt: switching the app's currency, saving the monthly
 * budget, the rounding used in the conversion message, and the list of
 * internal backups offered for restoring. The fragment works through the
 * store the data PrefsManager forwards to, so the store here is that one.
 */
module Settings {
  import opened Wrappers
  import opened Ledger
  import opened Text
  import opened Seqs
  import opened Sorting
  import opened KotlinNumbers
  import opened CurrencyConverter
  import opened UtilPrefs
  import opened Json
  import opened BackupUtil

  /**
   * applyNewCurrency: nothing when the code is the current one; otherwise
   * every amount and the budget are rebased by the factor between the two
   * codes, and the store is written in the order transactions, currency,
   * budget.
   */
  method ApplyNewCurrency(prefs: Prefs, newCurrency: string) returns (changed: bool)
    requires prefs.Valid() && prefs.bound
    modifies prefs
    ensures prefs.Valid() && prefs.bound
    ensures changed <==> old(prefs.GetCurrency()) != newCurrency
    ensures !changed ==> prefs.entries == old(prefs.entries) && prefs.writes == old(prefs.writes)
    ensures changed ==> var f := ConversionFactor(old(prefs.GetCurrency()), newCurrency);
      && prefs.LoadTransactions() == ConvertTransactions(old(prefs.LoadTransactions()), f)
      && prefs.GetBudget() == Rebase(old(prefs.GetBudget()), old(prefs.GetCurrency()), newCurrency)
      && prefs.GetCurrency() == newCurrency
      && prefs.LoadCategories() == old(prefs.LoadCategories())
      && prefs.writes == old(prefs.writes) + [KeyTransactions, KeyCurrency, KeyBudget]
  {
    var oldCurrency := prefs.GetCurrency();
    if oldCurrency == newCurrency {
      return false;
    }
    var factor := ConversionFactor(oldCurrency, newCurrency);
    var transactions := prefs.LoadTransactions();
    var updated := ConvertTransactions(transactions, factor);
    var oldBudget := prefs.GetBudget();
    var newBudget := Rebase(oldBudget, oldCurrency, newCurrency);
    WriteConverted(prefs, updated, newCurrency, newBudget);
    changed := true;
  }

  /** The three writes of a currency change, in the source's order. */
  method WriteConverted(prefs: Prefs, ts: seq<Transaction>, currency: string, budget: real)
    requires prefs.Valid() && prefs.bound
    modifies prefs
    ensures prefs.Valid() && prefs.bound
    ensures prefs.LoadTransactions() == ts && prefs.GetCurrency() == currency && prefs.GetBudget() == budget
    ensures prefs.LoadCategories() == old(prefs.LoadCategories())
    ensures prefs.writes == old(prefs.writes) + [KeyTransactions, KeyCurrency, KeyBudget]
  {
    ghost var m := prefs.entries;
    ConvertedEntries(m, ts, currency, budget);
    prefs.SaveTransactions(ts);
    prefs.SetCurrency(currency);
    prefs.SetBudget(budget);
  }

  /** The store after the writes of a currency change reads back the new values and the old categories. */
  lemma ConvertedEntries(m: map<string, Pref>, ts: seq<Transaction>, currency: string, budget: real)
    requires WellFormed(m)
    ensures var m' := m[KeyTransactions := Doc(EncodeTransactions(ts))][KeyCurrency := Text(currency)][KeyBudget := Float(budget)];
      && WellFormed(m') && TransactionsIn(m') == ts && CurrencyIn(m') == currency && BudgetIn(m') == budget
      && CategoriesIn(m') == CategoriesIn(m)
  {
    TransactionsRoundTrip(ts);
  }

  /** The budget stored for an amount entered in `selected` while the app is in `current`. */
  function FinalBudget(input: real, selected: string, current: string): (b: real)
    ensures selected == current ==> b == input
    ensures input > 0.0 ==> b > 0.0
  {
    if selected != current then RebaseKeepsSign(input, selected, current); Rebase(input, selected, current) else input
  }

  /** Converted back into the currency it was entered in, the stored budget is the entry. */
  lemma {:induction false} FinalBudgetConvertsBack(input: real, selected: string, current: string)
    ensures Rebase(FinalBudget(input, selected, current), current, selected) == input
  {
    if selected != current {
      BudgetRoundTrip(input, selected, current);
    }
  }

  datatype BudgetOutcome = EmptyInput | NotANumber | NotPositive | Saved(budget: real)

  /**
   * saveBudget: the trimmed entry must be present, a number (`parse` is
   * String.toDouble, None where it throws) and above zero; the budget is then
   * stored in the app's currency. Every rejection leaves the store as it was.
   */
  method SaveBudget(prefs: Prefs, text: string, parse: string -> Option<real>, selectedCurrency: string)
    returns (outcome: BudgetOutcome)
    requires prefs.Valid() && prefs.bound
    modifies prefs
    ensures prefs.Valid() && prefs.bound
    ensures !outcome.Saved? ==> prefs.entries == old(prefs.entries) && prefs.writes == old(prefs.writes)
    ensures Trim(text) == [] <==> outcome == EmptyInput
    ensures outcome == NotANumber <==> Trim(text) != [] && parse(Trim(text)).None?
    ensures outcome == NotPositive <==> Trim(text) != [] && parse(Trim(text)).Some? && parse(Trim(text)).value <= 0.0
    ensures outcome.Saved? ==>
      && parse(Trim(text)).Some? && parse(Trim(text)).value > 0.0
      && outcome.budget == FinalBudget(parse(Trim(text)).value, selectedCurrency, old(prefs.GetCurrency()))
      && prefs.GetBudget() == outcome.budget && outcome.budget > 0.0
      && prefs.GetCurrency() == old(prefs.GetCurrency())
      && prefs.LoadTransactions() == old(prefs.LoadTransactions())
      && prefs.LoadCategories() == old(prefs.LoadCategories())
      && prefs.writes == old(prefs.writes) + [KeyBudget]
  {
    var budgetText := Trim(text);
    if budgetText == [] {
      return EmptyInput;
    }
    var parsed := parse(budgetText);
    if parsed.None? {
      return NotANumber;
    }
    var inputBudget := parsed.value;
    if inputBudget <= 0.0 {
      return NotPositive;
    }
    var currentCurrency := prefs.GetCurrency();
    var finalBudget := FinalBudget(inputBudget, selectedCurrency, currentCurrency);
    WritesAreIndependent(prefs.entries, [], [], finalBudget, currentCurrency);
    prefs.SetBudget(finalBudget);
    outcome := Saved(finalBudget);
  }

  /** roundToTwoDecimals: the hundredths truncated toward zero through an Int. */
  function RoundToTwoDecimals(x: real): real
  {
    ToInt(x * 100.0) as real / 100.0
  }

  /**
   * In the Int range, the result is the value cut to whole hundredths,
   * toward zero; beyond it, toInt saturates and so does the result.
   */
  lemma RoundToTwoDecimalsBounds(x: real)
    ensures var r := RoundToTwoDecimals(x);
      && (r * 100.0).Floor as real == r * 100.0
      && (IntMin as real <= x * 100.0 < IntMax as real + 1.0 ==>
           && (x >= 0.0 ==> 0.0 <= r <= x < r + 0.01)
           && (x < 0.0 ==> r - 0.01 < x <= r <= 0.0))
      && (x * 100.0 >= IntMax as real + 1.0 ==> r == IntMax as real / 100.0)
      && (x * 100.0 < IntMin as real ==> r == IntMin as real / 100.0)
  {
    var t := Truncate(x * 100.0);
    assert RoundToTwoDecimals(x) * 100.0 == ToInt(x * 100.0) as real;
    if IntMin as real <= x * 100.0 < IntMax as real + 1.0 {
      assert ToInt(x * 100.0) == t;
    }
  }

  /** What the internal-storage restore dialog shows. */
  datatype RestoreDialog = NoFolder | NoFiles | NoBackups | Choose(files: seq<FileEntry>)

  function LastModified(f: FileEntry): int { f.lastModified }

  /**
   * The dialog for the internal backup folder: `listing` is None when the
   * folder cannot be listed. The choices are the backup files, newest first.
   */
  function RestoreChoices(folderExists: bool, listing: Option<seq<FileEntry>>): (d: RestoreDialog)
    ensures d == NoFolder <==> !folderExists
    ensures d == NoFiles <==> folderExists && (listing.None? || listing.value == [])
    ensures d == NoBackups <==> folderExists && listing.Some? && listing.value != [] && Filter(IsBackupFile, listing.value) == []
    ensures d.Choose? ==>
      && d.files != []
      && multiset(d.files) == multiset(Filter(IsBackupFile, listing.value))
      && SortedBy(DescendingInt(LastModified), d.files)
      && forall i :: 0 <= i < |d.files| ==> IsBackupFileName(d.files[i].name)
  {
    if !folderExists then NoFolder
    else if listing.None? || listing.value == [] then NoFiles
    else
      var backups := Filter(IsBackupFile, listing.value);
      if backups == [] then NoBackups
      else
        var sorted := Sort(DescendingInt(LastModified), backups);
        SortPermutes(DescendingInt(LastModified), backups);
        DescendingIntIsPreorder(LastModified);
        SortSorts(DescendingInt(LastModified), backups);
        SortedAreBackups(sorted, backups);
        Choose(sorted)
  }

  lemma SortedAreBackups(sorted: seq<FileEntry>, backups: seq<FileEntry>)
    requires multiset(sorted) == multiset(backups)
    requires forall i :: 0 <= i < |backups| ==> IsBackupFile(backups[i])
    ensures forall i :: 0 <= i < |sorted| ==> IsBackupFileName(sorted[i].name)
  {
    forall i | 0 <= i < |sorted|
      ensures IsBackupFileName(sorted[i].name)
    {
      assert sorted[i] in multiset(backups);
    }
  }

  /** A backup this app writes is always offered by the dialog. */
  lemma {:induction false} NewBackupIsOffered(timestamp: string, lastModified: int, others: seq<FileEntry>)
    ensures var d := RestoreChoices(true, Some(others + [FileEntry(BackupFileName(timestamp), lastModified, true)]));
      d.Choose? && FileEntry(BackupFileName(timestamp), lastModified, true) in multiset(d.files)
  {
    var f := FileEntry(BackupFileName(timestamp), lastModified, true);
    FilterAppend(IsBackupFile, others, [f]);
    assert Filter(IsBackupFile, [f]) == [f] by {
      FilterAll(IsBackupFile, [f]);
    }
  }
}
