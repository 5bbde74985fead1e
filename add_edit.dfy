/**
 * ui/AddEditTransactionActivity.kt: the form that adds a transaction or edits
 * the one whose id it was opened with. The form is checked field by field;
 * an accepted form replaces the first transaction with that id, or is
 * appended under a fresh id; after saving an expense, the month's spending
 * is checked against the budget.
 */
module AddEditTransaction {
  import opened Wrappers
  import opened Ledger
  import opened Text
  import opened Seqs
  import opened UtilPrefs
  import opened AppNotifications
  import opened Home

  /** Why the save button refused the form, in the order the checks run. */
  datatype Invalid = NoTitle | NoAmount | NotANumber | NotPositive | NoCategories | NoCategory

  /** The checked form: a reason to refuse it, or the values to store. */
  datatype Checked =
    | Rejected(reason: Invalid)
    | Accepted(title: string, amount: real, category: string, note: string)

  /**
   * The checks of saveTransaction, in the order they run: blank title, blank
   * amount, not a number, not positive, no category. `parse` is
   * String.toDouble (None for a NumberFormatException); `spinner` holds the
   * categories offered and `selected` the spinner's position. An accepted
   * form holds the trimmed values.
   */
  function CheckForm(titleText: string, amountText: string, parse: string -> Option<real>,
                     spinner: seq<Category>, selected: int, noteText: string): (r: Checked)
    ensures r == Rejected(NoTitle) <==> IsBlank(titleText)
    ensures r == Rejected(NoAmount) <==> !IsBlank(titleText) && IsBlank(amountText)
    ensures r == Rejected(NotANumber) <==>
      !IsBlank(titleText) && !IsBlank(amountText) && parse(Trim(amountText)).None?
    ensures r.Accepted? <==>
      && !IsBlank(titleText) && !IsBlank(amountText)
      && parse(Trim(amountText)).Some? && parse(Trim(amountText)).value > 0.0
      && 0 <= selected < |spinner|
    ensures r.Accepted? ==>
      && r.title == Trim(titleText) && r.title != []
      && r.amount == parse(Trim(amountText)).value && r.amount > 0.0
      && r.category == spinner[selected].name && r.note == Trim(noteText)
  {
    var title := Trim(titleText);
    var amountStr := Trim(amountText);
    if title == [] then Rejected(NoTitle)
    else if amountStr == [] then Rejected(NoAmount)
    else if parse(amountStr).None? then Rejected(NotANumber)
    else if parse(amountStr).value <= 0.0 then Rejected(NotPositive)
    else if |spinner| == 0 then Rejected(NoCategories)
    else if !(0 <= selected < |spinner|) then Rejected(NoCategory)
    else Accepted(title, parse(amountStr).value, spinner[selected].name, Trim(noteText))
  }

  /** The categories the spinner offers for the chosen type, in stored order. */
  function SpinnerCategories(cs: seq<Category>, isIncome: bool): (r: seq<Category>)
    ensures forall i :: 0 <= i < |r| ==> r[i] in cs && (r[i].txType == INCOME <==> isIncome)
    ensures forall i :: 0 <= i < |cs| && (cs[i].txType == INCOME <==> isIncome) ==> cs[i] in r
  {
    Filter((c: Category) => c.txType == (if isIncome then INCOME else EXPENSE), cs)
  }

  function HasId(id: string): Transaction -> bool
  {
    (t: Transaction) => t.id == id
  }

  /** The first transaction with that id (list.find). */
  function FindById(ts: seq<Transaction>, id: string): (r: Option<Transaction>)
    ensures r.None? <==> forall i :: 0 <= i < |ts| ==> ts[i].id != id
    ensures r.Some? ==> r.value.id == id && r.value in ts
  {
    var k := IndexOfFirst(HasId(id), ts);
    if k == -1 then None else Some(ts[k])
  }

  /**
   * The stored list after a save: with an editing id, the first transaction
   * carrying it is replaced (and nothing changes when none does); without
   * one, the new transaction is appended under `freshId`.
   */
  function Upsert(ts: seq<Transaction>, editingId: Option<string>, freshId: string, t: Transaction): (r: seq<Transaction>)
    ensures editingId.None? ==> r == ts + [t.(id := freshId)]
    ensures editingId.Some? ==> |r| == |ts|
    ensures editingId.Some? ==> var k := IndexOfFirst(HasId(editingId.value), ts);
      && (k == -1 ==> r == ts)
      && (k >= 0 ==> r == ts[k := t.(id := editingId.value)])
    ensures editingId.Some? ==> forall i :: 0 <= i < |ts| && ts[i].id != editingId.value ==> r[i] == ts[i]
  {
    match editingId
    case None => ts + [t.(id := freshId)]
    case Some(id) =>
      var k := IndexOfFirst(HasId(id), ts);
      if k == -1 then ts else ts[k := t.(id := id)]
  }

  /** After saving an edit, looking the id up gives the saved values. */
  lemma EditThenFind(ts: seq<Transaction>, id: string, freshId: string, t: Transaction)
    requires FindById(ts, id).Some?
    ensures FindById(Upsert(ts, Some(id), freshId, t), id) == Some(t.(id := id))
  {
    var k := IndexOfFirst(HasId(id), ts);
    var r := Upsert(ts, Some(id), freshId, t);
    assert r[k] == t.(id := id);
    assert forall j :: 0 <= j < k ==> r[j] == ts[j];
    assert IndexOfFirst(HasId(id), r) == k;
  }

  /** The form's state. */
  class AddEditScreen {
    /** The date the transaction gets; the current time unless the date picker or an edit set it. */
    var transactionDate: int
    /** The id of the transaction being edited, if any. */
    const editingId: Option<string>
    var isIncome: bool
    var finished: bool

    /**
     * onCreate with loadExistingTransaction: when editing a transaction that
     * exists, its date and type are taken over.
     */
    constructor (prefs: Prefs, editingId: Option<string>, now: int, incomeChecked: bool)
      requires prefs.Valid() && prefs.bound
      ensures this.editingId == editingId && !finished
      ensures editingId.Some? && FindById(prefs.LoadTransactions(), editingId.value).Some? ==>
        var t := FindById(prefs.LoadTransactions(), editingId.value).value;
        transactionDate == t.date && (isIncome <==> t.txType == INCOME)
      ensures !(editingId.Some? && FindById(prefs.LoadTransactions(), editingId.value).Some?) ==>
        transactionDate == now && isIncome == incomeChecked
    {
      this.editingId := editingId;
      finished := false;
      var found := if editingId.Some? then FindById(prefs.LoadTransactions(), editingId.value) else None;
      if found.Some? {
        transactionDate := found.value.date;
        isIncome := found.value.txType == INCOME;
      } else {
        transactionDate := now;
        isIncome := incomeChecked;
      }
    }

    /** The date picker's callback. */
    method PickDate(date: int)
      modifies this
      ensures transactionDate == date && isIncome == old(isIncome) && finished == old(finished)
    {
      transactionDate := date;
    }

    /**
     * The type radio group's listener: the checked type changes, and with it
     * the categories the spinner offers (`SpinnerCategories` of the new type).
     */
    method SelectType(income: bool)
      modifies this
      ensures isIncome == income && transactionDate == old(transactionDate) && finished == old(finished)
    {
      isIncome := income;
    }

    /**
     * saveTransaction: a refused form changes nothing; an accepted one is
     * stored, an expense triggers the budget check on this month's expenses,
     * and the screen closes.
     */
    method SaveTransaction(prefs: Prefs, shade: Shade, titleText: string, amountText: string,
                           parse: string -> Option<real>, selected: int, noteText: string,
                           freshId: string, cal: Calendar, now: int) returns (checked: Checked)
      requires prefs.Valid() && prefs.bound
      modifies this, prefs, shade
      ensures checked == CheckForm(titleText, amountText, parse,
        SpinnerCategories(old(prefs.LoadCategories()), isIncome), selected, noteText)
      ensures transactionDate == old(transactionDate) && isIncome == old(isIncome)
      ensures prefs.Valid() && prefs.bound
      ensures checked.Rejected? ==>
        prefs.entries == old(prefs.entries) && shade.shown == old(shade.shown) && finished == old(finished)
      ensures checked.Accepted? ==> finished
      ensures checked.Accepted? ==> prefs.LoadTransactions() == Upsert(old(prefs.LoadTransactions()), editingId, freshId,
        Transaction("", checked.title, checked.amount, checked.category,
          if isIncome then INCOME else EXPENSE, transactionDate, checked.note))
      ensures checked.Accepted? ==> prefs.writes == old(prefs.writes) + [KeyTransactions]
      ensures checked.Accepted? && isIncome ==> shade.shown == old(shade.shown)
      ensures checked.Accepted? && !isIncome ==>
        var spent := MonthlyExpenses(cal, now, prefs.LoadTransactions());
        && (!(prefs.GetBudget() > 0.0 && spent > prefs.GetBudget()) ==> shade.shown == old(shade.shown))
        && (prefs.GetBudget() > 0.0 && spent > prefs.GetBudget() && shade.permitted ==>
             shade.shown == old(shade.shown)[IdBudgetExceeded :=
               Notice("Budget Exceeded", ExceededText(ExceededSpent(prefs.LoadTransactions()), prefs.GetBudget(), prefs.GetCurrency()))])
        && (prefs.GetBudget() > 0.0 && spent > prefs.GetBudget() && !shade.permitted ==> shade.shown == old(shade.shown))
    {
      checked := CheckForm(titleText, amountText, parse, SpinnerCategories(prefs.LoadCategories(), isIncome), selected, noteText);
      if checked.Accepted? {
        var txType := if isIncome then INCOME else EXPENSE;
        Store(prefs, shade, Transaction("", checked.title, checked.amount, checked.category, txType, transactionDate, checked.note),
          freshId, cal, now);
        finished := true;
      }
    }

    /** Writes the accepted transaction and runs the budget check for an expense. */
    method Store(prefs: Prefs, shade: Shade, t: Transaction, freshId: string, cal: Calendar, now: int)
      requires prefs.Valid() && prefs.bound
      modifies prefs, shade
      ensures prefs.Valid() && prefs.bound
      ensures prefs.LoadTransactions() == Upsert(old(prefs.LoadTransactions()), editingId, freshId, t)
      ensures prefs.writes == old(prefs.writes) + [KeyTransactions]
      ensures t.txType == INCOME ==> shade.shown == old(shade.shown)
      ensures t.txType == EXPENSE ==>
        var spent := MonthlyExpenses(cal, now, prefs.LoadTransactions());
        && (!(prefs.GetBudget() > 0.0 && spent > prefs.GetBudget()) ==> shade.shown == old(shade.shown))
        && (prefs.GetBudget() > 0.0 && spent > prefs.GetBudget() && shade.permitted ==>
             shade.shown == old(shade.shown)[IdBudgetExceeded :=
               Notice("Budget Exceeded", ExceededText(ExceededSpent(prefs.LoadTransactions()), prefs.GetBudget(), prefs.GetCurrency()))])
        && (prefs.GetBudget() > 0.0 && spent > prefs.GetBudget() && !shade.permitted ==> shade.shown == old(shade.shown))
    {
      var updated := Upsert(prefs.LoadTransactions(), editingId, freshId, t);
      WritesAreIndependent(prefs.entries, updated, [], 0.0, "");
      prefs.SaveTransactions(updated);
      if t.txType == EXPENSE {
        var budget := prefs.GetBudget();
        if budget > 0.0 {
          shade.CheckBudgetStatus(prefs, MonthlyExpenses(cal, now, prefs.LoadTransactions()), budget);
        }
      }
    }
  }
}
