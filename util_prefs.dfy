/**
 * util/PrefsManager.kt: the app's key/value store. Each entry of the
 * shared-preferences file is a string, a float or a flag; the two lists are
 * stored as JSON documents. Every read falls back to a default when its key
 * was never written.
 */
module UtilPrefs {
  import opened Wrappers
  import opened Ledger
  import opened Json

  /** One shared-preferences value. A Gson document is kept as its tree. */
  datatype Pref = Text(s: string) | Doc(j: Json) | Float(x: real) | Flag(b: bool)

  const KeyTransactions := "transactions"
  const KeyBudget := "budget"
  const KeyCurrency := "currency"
  const KeyCategories := "categories"
  /**
   * The three flags that callers read and write through this store. Its
   * declared API has no flag accessors, so these keys and their false
   * default are assumed.
   */
  const KeyOnboarding := "onboarding_completed"
  const KeyInternalStorage := "use_internal_storage"
  const KeyDarkMode := "theme_mode"

  /** Each key holds the kind of value its setter writes, and the lists decode. */
  ghost predicate WellFormed(m: map<string, Pref>)
  {
    && (KeyTransactions in m ==> m[KeyTransactions].Doc? && DecodeTransactions(m[KeyTransactions].j).Some?)
    && (KeyCategories in m ==> m[KeyCategories].Doc? && DecodeCategories(m[KeyCategories].j).Some?)
    && (KeyBudget in m ==> m[KeyBudget].Float?)
    && (KeyCurrency in m ==> m[KeyCurrency].Text?)
    && (KeyOnboarding in m ==> m[KeyOnboarding].Flag?)
    && (KeyInternalStorage in m ==> m[KeyInternalStorage].Flag?)
    && (KeyDarkMode in m ==> m[KeyDarkMode].Flag?)
  }

  /** The categories offered before the user saves any: two for income, six for expenses. */
  function DefaultCategories(): (cs: seq<Category>)
    ensures |cs| == 8
    ensures forall i, j :: 0 <= i < j < |cs| ==> cs[i].name != cs[j].name
    ensures forall i :: 0 <= i < |cs| ==> (cs[i].txType == INCOME <==> i < 2)
  {
    [ Category("Salary", INCOME, "\U{1F4B0}"),
      Category("Gifts", INCOME, "\U{1F381}"),
      Category("Food", EXPENSE, "\U{1F354}"),
      Category("Transport", EXPENSE, "\U{1F697}"),
      Category("Entertainment", EXPENSE, "\U{1F3AC}"),
      Category("Housing", EXPENSE, "\U{1F3E0}"),
      Category("Utilities", EXPENSE, "\U{1F4A1}"),
      Category("Healthcare", EXPENSE, "\U{FFFD}\U{FFFD}") ]
  }

  /** loadTransactions on a snapshot of the store: the empty list when the key is absent. */
  function TransactionsIn(m: map<string, Pref>): (ts: seq<Transaction>)
    requires WellFormed(m)
    ensures KeyTransactions !in m ==> ts == []
    ensures KeyTransactions in m ==> DecodeTransactions(m[KeyTransactions].j) == Some(ts)
  {
    if KeyTransactions in m then DecodeTransactions(m[KeyTransactions].j).value else []
  }

  /** loadCategories on a snapshot: the defaults when the key is absent, the saved list otherwise. */
  function CategoriesIn(m: map<string, Pref>): (cs: seq<Category>)
    requires WellFormed(m)
    ensures KeyCategories !in m ==> cs == DefaultCategories()
    ensures KeyCategories in m ==> DecodeCategories(m[KeyCategories].j) == Some(cs)
  {
    if KeyCategories in m then DecodeCategories(m[KeyCategories].j).value else DefaultCategories()
  }

  function BudgetIn(m: map<string, Pref>): (b: real)
    requires WellFormed(m)
    ensures KeyBudget !in m ==> b == 0.0
    ensures KeyBudget in m ==> m[KeyBudget] == Float(b)
  {
    if KeyBudget in m then m[KeyBudget].x else 0.0
  }

  function CurrencyIn(m: map<string, Pref>): (c: string)
    requires WellFormed(m)
    ensures KeyCurrency !in m ==> c == ""
    ensures KeyCurrency in m ==> m[KeyCurrency] == Text(c)
  {
    if KeyCurrency in m then m[KeyCurrency].s else ""
  }

  /** A flag, false when never written. */
  function FlagIn(m: map<string, Pref>, key: string): (b: bool)
    requires key in m ==> m[key].Flag?
    ensures key !in m ==> !b
    ensures key in m ==> m[key] == Flag(b)
  {
    key in m && m[key].b
  }

  /** Writing the transaction list and reading it back gives the same list; nothing else is read differently. */
  lemma {:induction false} SaveThenLoadTransactions(m: map<string, Pref>, ts: seq<Transaction>)
    requires WellFormed(m)
    ensures WellFormed(m[KeyTransactions := Doc(EncodeTransactions(ts))])
    ensures TransactionsIn(m[KeyTransactions := Doc(EncodeTransactions(ts))]) == ts
  {
    TransactionsRoundTrip(ts);
  }

  lemma {:induction false} SaveThenLoadCategories(m: map<string, Pref>, cs: seq<Category>)
    requires WellFormed(m)
    ensures WellFormed(m[KeyCategories := Doc(EncodeCategories(cs))])
    ensures CategoriesIn(m[KeyCategories := Doc(EncodeCategories(cs))]) == cs
  {
    CategoriesRoundTrip(cs);
  }

  /**
   * The store object. `bound` records that init has assigned the lateinit
   * preferences handle; before that every access throws, so the operations
   * require it.
   */
  class Prefs {
    var entries: map<string, Pref>
    var bound: bool
    /** The keys written, oldest first. */
    ghost var writes: seq<string>

    ghost predicate Valid()
      reads this
    {
      WellFormed(entries)
    }

    /** The store as the app finds it at start-up: the persisted entries, handle not yet assigned. */
    constructor (persisted: map<string, Pref>)
      requires WellFormed(persisted)
      ensures Valid() && !bound
      ensures entries == persisted && writes == []
    {
      entries := persisted;
      bound := false;
      writes := [];
    }

    /** init: assigns the preferences handle. */
    method Init()
      requires Valid()
      modifies this
      ensures Valid() && bound
      ensures entries == old(entries) && writes == old(writes)
    {
      bound := true;
    }

    function LoadTransactions(): seq<Transaction>
      requires Valid() && bound
      reads this
    {
      TransactionsIn(entries)
    }

    function LoadCategories(): seq<Category>
      requires Valid() && bound
      reads this
    {
      CategoriesIn(entries)
    }

    function GetBudget(): real
      requires Valid() && bound
      reads this
    {
      BudgetIn(entries)
    }

    function GetCurrency(): string
      requires Valid() && bound
      reads this
    {
      CurrencyIn(entries)
    }

    function IsOnboardingCompleted(): bool
      requires Valid() && bound
      reads this
    {
      FlagIn(entries, KeyOnboarding)
    }

    function GetUseInternalStorageForBackup(): bool
      requires Valid() && bound
      reads this
    {
      FlagIn(entries, KeyInternalStorage)
    }

    function GetThemeMode(): bool
      requires Valid() && bound
      reads this
    {
      FlagIn(entries, KeyDarkMode)
    }

    method SaveTransactions(ts: seq<Transaction>)
      requires Valid() && bound
      modifies this
      ensures Valid() && bound
      ensures entries == old(entries)[KeyTransactions := Doc(EncodeTransactions(ts))]
      ensures writes == old(writes) + [KeyTransactions]
      ensures LoadTransactions() == ts
    {
      SaveThenLoadTransactions(entries, ts);
      entries := entries[KeyTransactions := Doc(EncodeTransactions(ts))];
      writes := writes + [KeyTransactions];
    }

    method SaveCategories(cs: seq<Category>)
      requires Valid() && bound
      modifies this
      ensures Valid() && bound
      ensures entries == old(entries)[KeyCategories := Doc(EncodeCategories(cs))]
      ensures writes == old(writes) + [KeyCategories]
      ensures LoadCategories() == cs
    {
      SaveThenLoadCategories(entries, cs);
      entries := entries[KeyCategories := Doc(EncodeCategories(cs))];
      writes := writes + [KeyCategories];
    }

    method SetBudget(budget: real)
      requires Valid() && bound
      modifies this
      ensures Valid() && bound
      ensures entries == old(entries)[KeyBudget := Float(budget)]
      ensures writes == old(writes) + [KeyBudget]
      ensures GetBudget() == budget
    {
      entries := entries[KeyBudget := Float(budget)];
      writes := writes + [KeyBudget];
    }

    method SetCurrency(code: string)
      requires Valid() && bound
      modifies this
      ensures Valid() && bound
      ensures entries == old(entries)[KeyCurrency := Text(code)]
      ensures writes == old(writes) + [KeyCurrency]
      ensures GetCurrency() == code
    {
      entries := entries[KeyCurrency := Text(code)];
      writes := writes + [KeyCurrency];
    }

    /** The three flag setters share this shape; `key` is one of the flag keys. */
    method SetFlag(key: string, value: bool)
      requires Valid() && bound
      requires key == KeyOnboarding || key == KeyInternalStorage || key == KeyDarkMode
      modifies this
      ensures Valid() && bound
      ensures entries == old(entries)[key := Flag(value)]
      ensures writes == old(writes) + [key]
      ensures FlagIn(entries, key) == value
    {
      entries := entries[key := Flag(value)];
      writes := writes + [key];
    }
  }

  /** Writing one key leaves every read of the other keys as it was. */
  lemma {:induction false} WritesAreIndependent(m: map<string, Pref>, ts: seq<Transaction>, cs: seq<Category>, b: real, c: string)
    requires WellFormed(m)
    ensures var m1 := m[KeyTransactions := Doc(EncodeTransactions(ts))];
      WellFormed(m1) && CategoriesIn(m1) == CategoriesIn(m) && BudgetIn(m1) == BudgetIn(m) && CurrencyIn(m1) == CurrencyIn(m)
    ensures var m2 := m[KeyCategories := Doc(EncodeCategories(cs))];
      WellFormed(m2) && TransactionsIn(m2) == TransactionsIn(m) && BudgetIn(m2) == BudgetIn(m) && CurrencyIn(m2) == CurrencyIn(m)
    ensures var m3 := m[KeyBudget := Float(b)];
      WellFormed(m3) && TransactionsIn(m3) == TransactionsIn(m) && CategoriesIn(m3) == CategoriesIn(m) && CurrencyIn(m3) == CurrencyIn(m)
    ensures var m4 := m[KeyCurrency := Text(c)];
      WellFormed(m4) && TransactionsIn(m4) == TransactionsIn(m) && CategoriesIn(m4) == CategoriesIn(m) && BudgetIn(m4) == BudgetIn(m)
  {
    TransactionsRoundTrip(ts);
    CategoriesRoundTrip(cs);
  }
}
