/**
 * data/PrefsManager.kt: the older store the screens still call. It keeps its
 * own preferences file, but every write is forwarded to the util store and
 * every read is answered by it. On init it purges transactions titled
 * "Test Expense" and it copies a completed-onboarding flag across.
 */
module LegacyPrefs {
  import opened Ledger
  import opened Seqs
  import opened Json
  import opened UtilPrefs

  const TestTitle := "Test Expense"

  /** The purge keeps a transaction unless it carries the test title. */
  function NotTestData(t: Transaction): bool
  {
    t.title != TestTitle
  }

  /** What a purge leaves: exactly the non-test transactions, in their order, and no test transaction. */
  function Purged(ts: seq<Transaction>): (r: seq<Transaction>)
    ensures IsSubsequence(r, ts)
    ensures forall i :: 0 <= i < |r| ==> r[i].title != TestTitle
    ensures forall i :: 0 <= i < |ts| && ts[i].title != TestTitle ==> ts[i] in r
    ensures |r| == |ts| <==> forall i :: 0 <= i < |ts| ==> ts[i].title != TestTitle
  {
    PurgedLength(ts);
    Filter(NotTestData, ts)
  }

  lemma {:induction false} PurgedLength(ts: seq<Transaction>)
    ensures |Filter(NotTestData, ts)| == |ts| <==> forall i :: 0 <= i < |ts| ==> ts[i].title != TestTitle
  {
    if ts != [] {
      PurgedLength(ts[1..]);
      assert forall i :: 1 <= i < |ts| ==> ts[i] == ts[1..][i - 1];
    }
  }

  /** Purging a purged list removes nothing more. */
  lemma {:induction false} PurgeIdempotent(ts: seq<Transaction>)
    ensures Purged(Purged(ts)) == Purged(ts)
    ensures |Purged(Purged(ts))| == |Purged(ts)|
  {
    FilterIdempotent(NotTestData, ts);
  }

  class LegacyPrefs {
    /** Whether init has assigned this store's own preferences handle. */
    var initialized: bool
    /** This store's own preferences file. */
    var local: map<string, Pref>
    /** The util store every call is forwarded to. */
    const util: Prefs

    ghost predicate Valid()
      reads this, util
    {
      util.Valid() && WellFormed(local)
    }

    constructor (util: Prefs, persisted: map<string, Pref>)
      requires util.Valid() && WellFormed(persisted)
      ensures Valid() && !initialized && this.util == util
      ensures local == persisted
    {
      this.util := util;
      initialized := false;
      local := persisted;
    }

    /**
     * init as written: the handle is assigned, the purge runs, and only then
     * is the util store initialised. On a cold start the purge's first read
     * throws and is swallowed, so the stored transactions stay as they were.
     */
    method Init()
      requires Valid()
      modifies this, util
      ensures Valid() && initialized && util.bound
      ensures !old(util.bound) ==> util.entries == old(util.entries)
      ensures old(util.bound) ==> util.LoadTransactions() == Purged(old(TransactionsIn(util.entries)))
    {
      initialized := true;
      RemoveTestData();
      util.Init();
    }

    /** init with the util store bound before the purge: test data is removed on every start. */
    method InitPurgingAfterBind()
      requires Valid()
      modifies this, util
      ensures Valid() && initialized && util.bound
      ensures util.LoadTransactions() == Purged(old(TransactionsIn(util.entries)))
    {
      initialized := true;
      util.Init();
      RemoveTestData();
    }

    /**
     * Loads, drops test transactions and saves only if something was dropped.
     * Any failure is swallowed; the only one that can arise here is the read
     * of an unbound util store.
     */
    method RemoveTestData()
      requires Valid()
      modifies this, util
      ensures Valid() && initialized == old(initialized) && util.bound == old(util.bound)
      ensures !util.bound ==> util.entries == old(util.entries) && local == old(local)
      ensures util.bound ==> util.LoadTransactions() == Purged(old(TransactionsIn(util.entries)))
      ensures util.bound && |Purged(old(TransactionsIn(util.entries)))| == |old(TransactionsIn(util.entries))| ==>
        util.entries == old(util.entries) && local == old(local)
    {
      if !util.bound {
        return;
      }
      var ts := util.LoadTransactions();
      var kept := Purged(ts);
      if |kept| < |ts| {
        SaveTransactions(kept);
      } else {
        FilterAll(NotTestData, ts);
      }
    }

    /** Writes the local copy when there is one, and the util store in every case. */
    method SaveTransactions(ts: seq<Transaction>)
      requires Valid() && util.bound
      modifies this, util
      ensures Valid() && util.bound && initialized == old(initialized)
      ensures util.entries == old(util.entries)[KeyTransactions := Doc(EncodeTransactions(ts))]
      ensures local == if initialized then old(local)[KeyTransactions := Doc(EncodeTransactions(ts))] else old(local)
      ensures LoadTransactions() == ts
    {
      if initialized {
        SaveThenLoadTransactions(local, ts);
        local := local[KeyTransactions := Doc(EncodeTransactions(ts))];
      }
      util.SaveTransactions(ts);
    }

    method SaveCategories(cs: seq<Category>)
      requires Valid() && util.bound
      modifies this, util
      ensures Valid() && util.bound && initialized == old(initialized)
      ensures util.entries == old(util.entries)[KeyCategories := Doc(EncodeCategories(cs))]
      ensures local == if initialized then old(local)[KeyCategories := Doc(EncodeCategories(cs))] else old(local)
      ensures LoadCategories() == cs
    {
      if initialized {
        SaveThenLoadCategories(local, cs);
        local := local[KeyCategories := Doc(EncodeCategories(cs))];
      }
      util.SaveCategories(cs);
    }

    method SetBudget(budget: real)
      requires Valid() && util.bound
      modifies this, util
      ensures Valid() && util.bound && initialized == old(initialized)
      ensures util.entries == old(util.entries)[KeyBudget := Float(budget)]
      ensures local == if initialized then old(local)[KeyBudget := Float(budget)] else old(local)
      ensures GetBudget() == budget
    {
      if initialized {
        local := local[KeyBudget := Float(budget)];
      }
      util.SetBudget(budget);
    }

    method SetCurrency(code: string)
      requires Valid() && util.bound
      modifies this, util
      ensures Valid() && util.bound && initialized == old(initialized)
      ensures util.entries == old(util.entries)[KeyCurrency := Text(code)]
      ensures local == if initialized then old(local)[KeyCurrency := Text(code)] else old(local)
      ensures GetCurrency() == code
    {
      if initialized {
        local := local[KeyCurrency := Text(code)];
      }
      util.SetCurrency(code);
    }

    method SetUseInternalStorageForBackup(useInternal: bool)
      requires Valid() && util.bound
      modifies this, util
      ensures Valid() && util.bound && initialized == old(initialized)
      ensures util.entries == old(util.entries)[KeyInternalStorage := Flag(useInternal)]
      ensures local == if initialized then old(local)[KeyInternalStorage := Flag(useInternal)] else old(local)
      ensures GetUseInternalStorageForBackup() == useInternal
    {
      if initialized {
        local := local[KeyInternalStorage := Flag(useInternal)];
      }
      util.SetFlag(KeyInternalStorage, useInternal);
    }

    /** Updates both flags when the local file is there, the util flag otherwise. */
    method SetOnboardingCompleted(completed: bool)
      requires Valid() && util.bound
      modifies this, util
      ensures Valid() && util.bound && initialized == old(initialized)
      ensures util.entries == old(util.entries)[KeyOnboarding := Flag(completed)]
      ensures local == if initialized then old(local)[KeyOnboarding := Flag(completed)] else old(local)
      ensures util.IsOnboardingCompleted() == completed
      ensures initialized ==> FlagIn(local, KeyOnboarding) == completed
    {
      if initialized {
        local := local[KeyOnboarding := Flag(completed)];
      }
      util.SetFlag(KeyOnboarding, completed);
    }

    /**
     * The util flag, after copying a completed legacy flag into it: once
     * either store says onboarding is done, the answer is true.
     */
    method IsOnboardingCompleted() returns (done: bool)
      requires Valid() && util.bound
      modifies util
      ensures Valid() && util.bound
      ensures done == (old(util.IsOnboardingCompleted()) || (initialized && FlagIn(local, KeyOnboarding)))
      ensures done == util.IsOnboardingCompleted()
      ensures util.entries == if initialized && FlagIn(local, KeyOnboarding)
        then old(util.entries)[KeyOnboarding := Flag(true)] else old(util.entries)
    {
      if initialized && FlagIn(local, KeyOnboarding) {
        util.SetFlag(KeyOnboarding, true);
      }
      done := util.IsOnboardingCompleted();
    }

    function LoadTransactions(): seq<Transaction>
      requires Valid() && util.bound
      reads this, util
    {
      util.LoadTransactions()
    }

    function LoadCategories(): seq<Category>
      requires Valid() && util.bound
      reads this, util
    {
      util.LoadCategories()
    }

    function GetBudget(): real
      requires Valid() && util.bound
      reads this, util
    {
      util.GetBudget()
    }

    function GetCurrency(): string
      requires Valid() && util.bound
      reads this, util
    {
      util.GetCurrency()
    }

    function GetUseInternalStorageForBackup(): bool
      requires Valid() && util.bound
      reads this, util
    {
      util.GetUseInternalStorageForBackup()
    }
  }

  /** A stored list holding one test transaction. */
  function TestExpense(): Transaction
  {
    Transaction("t1", TestTitle, 5.0, "Food", EXPENSE, 0, "")
  }

  /** On a cold start (util store not yet bound) the as-written init leaves the test transaction in place. */
  method ColdStartKeepsTestData() returns (left: seq<Transaction>)
    ensures left == [TestExpense()]
  {
    TransactionsRoundTrip([TestExpense()]);
    var persisted := map[KeyTransactions := Doc(EncodeTransactions([TestExpense()]))];
    var util := new Prefs(persisted);
    var legacy := new LegacyPrefs(util, map[]);
    legacy.Init();
    left := util.LoadTransactions();
  }

  /** On the same cold start, binding first removes it. */
  method ColdStartPurgesTestData() returns (left: seq<Transaction>)
    ensures left == []
  {
    TransactionsRoundTrip([TestExpense()]);
    var persisted := map[KeyTransactions := Doc(EncodeTransactions([TestExpense()]))];
    var util := new Prefs(persisted);
    var legacy := new LegacyPrefs(util, map[]);
    legacy.InitPurgingAfterBind();
    left := util.LoadTransactions();
  }
}
