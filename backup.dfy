/**
 * util/BackupUtil.kt: backup documents, their file names, restoring a
 * document into the store, and finding the most recent backup. A backup file
 * is kept as the JSON tree Gson writes into it; reading the text is not part
 * of the model, so an unreadable or unparseable file is an absent tree.
 */
module BackupUtil {
  import opened Wrappers
  import opened Ledger
  import opened Text
  import opened Seqs
  import opened Json
  import opened UtilPrefs

  const BackupPrefix := "FinanceTracker_backup_"
  const LegacyBackupPrefix := "backup_"
  const BackupSuffix := ".json"

  /** A file in a backup folder: its name, its modification time and whether it lies in internal storage. */
  datatype FileEntry = FileEntry(name: string, lastModified: int, internal: bool)

  /** The name filter shared by the backup listing and the restore dialog. */
  predicate IsBackupFileName(name: string)
  {
    (StartsWith(name, BackupPrefix) || StartsWith(name, LegacyBackupPrefix)) && EndsWith(name, BackupSuffix)
  }

  predicate IsBackupFile(f: FileEntry)
  {
    IsBackupFileName(f.name)
  }

  /** The name of a new backup, `timestamp` being the clock formatted as yyyyMMdd_HHmmss. */
  function BackupFileName(timestamp: string): (name: string)
    ensures IsBackupFileName(name)
    ensures |name| == |BackupPrefix| + |timestamp| + |BackupSuffix|
  {
    AffixesOfConcat(BackupPrefix, timestamp, BackupSuffix);
    BackupPrefix + timestamp + BackupSuffix
  }

  /** The document written by a backup to internal or external storage: four members, no date. */
  function BackupDocument(ts: seq<Transaction>, cs: seq<Category>, budget: real, currency: string): (j: Json)
    ensures j.JObj? && j.fields.Keys == {"transactions", "categories", "budget", "currency"}
  {
    JObj(map["transactions" := EncodeTransactions(ts), "categories" := EncodeCategories(cs),
             "budget" := JNum(budget), "currency" := JStr(currency)])
  }

  /** The document written through MediaStore: the categories are missing. */
  function MediaStoreDocument(ts: seq<Transaction>, budget: real, currency: string): (j: Json)
    ensures j.JObj? && j.fields.Keys == {"transactions", "budget", "currency"}
  {
    JObj(map["transactions" := EncodeTransactions(ts), "budget" := JNum(budget), "currency" := JStr(currency)])
  }

  /** What a restore writes. */
  datatype Restored = Restored(transactions: seq<Transaction>, categories: seq<Category>, budget: real, currency: string)

  /** A member of the document, JNull when it is missing, as a Map lookup gives null. */
  function Member(o: map<string, Json>, k: string): Json
  {
    if k in o then o[k] else JNull
  }

  /**
   * The values a restore takes from a parsed document, or None when it fails.
   * The transactions must decode (a missing list reads as null, which the
   * non-null declaration rejects); categories that do not decode are replaced
   * by `current`; a budget that is not a number becomes 0.0 and a currency
   * that is not a string becomes "USD".
   */
  function ReadBackup(doc: Option<Json>, current: seq<Category>): (r: Option<Restored>)
    ensures r.Some? <==> doc.Some? && doc.value.JObj? && DecodeTransactions(Member(doc.value.fields, "transactions")).Some?
    ensures r.Some? ==> Some(r.value.transactions) == DecodeTransactions(Member(doc.value.fields, "transactions"))
    ensures r.Some? ==> var cs := DecodeCategories(Member(doc.value.fields, "categories"));
      r.value.categories == if cs.Some? then cs.value else current
    ensures r.Some? && !Member(doc.value.fields, "budget").JNum? ==> r.value.budget == 0.0
    ensures r.Some? && !Member(doc.value.fields, "currency").JStr? ==> r.value.currency == "USD"
  {
    if doc.None? || !doc.value.JObj? then None
    else
      var o := doc.value.fields;
      var ts := DecodeTransactions(Member(o, "transactions"));
      if ts.None? then None
      else
        var cs := DecodeCategories(Member(o, "categories"));
        var budget := if Member(o, "budget").JNum? then Member(o, "budget").x else 0.0;
        var currency := if Member(o, "currency").JStr? then Member(o, "currency").s else "USD";
        Some(Restored(ts.value, if cs.Some? then cs.value else current, budget, currency))
  }

  /** Restoring a backup gives back exactly the four values it was made from. */
  lemma BackupRestoreRoundTrip(ts: seq<Transaction>, cs: seq<Category>, budget: real, currency: string, current: seq<Category>)
    ensures ReadBackup(Some(BackupDocument(ts, cs, budget, currency)), current) == Some(Restored(ts, cs, budget, currency))
  {
    TransactionsRoundTrip(ts);
    CategoriesRoundTrip(cs);
  }

  /** Restoring a MediaStore backup keeps the categories the store holds. */
  lemma MediaStoreRestoreKeepsCategories(ts: seq<Transaction>, budget: real, currency: string, current: seq<Category>)
    ensures ReadBackup(Some(MediaStoreDocument(ts, budget, currency)), current) == Some(Restored(ts, current, budget, currency))
  {
    TransactionsRoundTrip(ts);
  }

  /** A backup of the store as it is now. */
  function BackupOf(prefs: Prefs): Json
    requires prefs.Valid() && prefs.bound
    reads prefs
  {
    BackupDocument(prefs.LoadTransactions(), prefs.LoadCategories(), prefs.GetBudget(), prefs.GetCurrency())
  }

  /**
   * restoreFromFile: on success the four values are written in the order
   * transactions, categories, budget, currency; on failure nothing is written.
   */
  method RestoreFromFile(prefs: Prefs, doc: Option<Json>) returns (ok: bool)
    requires prefs.Valid() && prefs.bound
    modifies prefs
    ensures prefs.Valid() && prefs.bound
    ensures ok <==> ReadBackup(doc, old(prefs.LoadCategories())).Some?
    ensures !ok ==> prefs.entries == old(prefs.entries) && prefs.writes == old(prefs.writes)
    ensures ok ==> var r := ReadBackup(doc, old(prefs.LoadCategories())).value;
      && prefs.LoadTransactions() == r.transactions && prefs.LoadCategories() == r.categories
      && prefs.GetBudget() == r.budget && prefs.GetCurrency() == r.currency
      && prefs.writes == old(prefs.writes) + [KeyTransactions, KeyCategories, KeyBudget, KeyCurrency]
  {
    var read := ReadBackup(doc, prefs.LoadCategories());
    if read.None? {
      return false;
    }
    WriteRestored(prefs, read.value);
    ok := true;
  }

  /** The four writes of a successful restore, in the source's order. */
  method WriteRestored(prefs: Prefs, r: Restored)
    requires prefs.Valid() && prefs.bound
    modifies prefs
    ensures prefs.Valid() && prefs.bound
    ensures prefs.LoadTransactions() == r.transactions && prefs.LoadCategories() == r.categories
    ensures prefs.GetBudget() == r.budget && prefs.GetCurrency() == r.currency
    ensures prefs.writes == old(prefs.writes) + [KeyTransactions, KeyCategories, KeyBudget, KeyCurrency]
  {
    ghost var m := prefs.entries;
    RestoredEntries(m, r);
    prefs.SaveTransactions(r.transactions);
    prefs.SaveCategories(r.categories);
    prefs.SetBudget(r.budget);
    prefs.SetCurrency(r.currency);
  }

  /** The store after the four writes of a restore reads back the restored values. */
  lemma RestoredEntries(m: map<string, Pref>, r: Restored)
    requires WellFormed(m)
    ensures var m' := m[KeyTransactions := Doc(EncodeTransactions(r.transactions))]
      [KeyCategories := Doc(EncodeCategories(r.categories))][KeyBudget := Float(r.budget)][KeyCurrency := Text(r.currency)];
      && WellFormed(m') && TransactionsIn(m') == r.transactions && CategoriesIn(m') == r.categories
      && BudgetIn(m') == r.budget && CurrencyIn(m') == r.currency
  {
    TransactionsRoundTrip(r.transactions);
    CategoriesRoundTrip(r.categories);
  }

  /** The index of the first file with the greatest modification time. */
  ghost predicate IsFirstLatest(files: seq<FileEntry>, k: int)
  {
    && 0 <= k < |files|
    && (forall i :: 0 <= i < |files| ==> files[i].lastModified <= files[k].lastModified)
    && (forall i :: 0 <= i < k ==> files[i].lastModified < files[k].lastModified)
  }

  /** maxByOrNull { it.lastModified() }: the first file with the latest time, by a scan. */
  method LatestIndex(files: seq<FileEntry>) returns (k: int)
    requires files != []
    ensures IsFirstLatest(files, k)
  {
    k := 0;
    var i := 1;
    while i < |files|
      invariant 1 <= i <= |files| && 0 <= k < i
      invariant forall j :: 0 <= j < i ==> files[j].lastModified <= files[k].lastModified
      invariant forall j :: 0 <= j < k ==> files[j].lastModified < files[k].lastModified
    {
      if files[k].lastModified < files[i].lastModified {
        k := i;
      }
      i := i + 1;
    }
  }

  /**
   * getBackupInfo without its date formatting: the backup files of the
   * Downloads folder and then of the internal folder (None for a folder that
   * does not exist or cannot be listed), and the first latest of them.
   */
  method GetBackupInfo(downloads: Option<seq<FileEntry>>, internalFolder: Option<seq<FileEntry>>)
    returns (latest: Option<FileEntry>)
    ensures var all := Filter(IsBackupFile, Contents(downloads) + Contents(internalFolder));
      && (latest.None? <==> all == [])
      && (latest.Some? ==> exists k :: IsFirstLatest(all, k) && all[k] == latest.value)
  {
    var all := CollectBackupFiles([downloads, internalFolder]);
    ListedPair(downloads, internalFolder);
    if all == [] {
      return None;
    }
    var k := LatestIndex(all);
    latest := Some(all[k]);
  }

  /** The backup files of each folder in turn, gathered into one list. */
  method CollectBackupFiles(folders: seq<Option<seq<FileEntry>>>) returns (all: seq<FileEntry>)
    ensures all == Filter(IsBackupFile, Listed(folders))
  {
    all := [];
    for n := 0 to |folders|
      invariant all == Filter(IsBackupFile, Listed(folders[..n]))
    {
      CollectedStep(folders, n);
      if folders[n].Some? {
        all := all + Filter(IsBackupFile, folders[n].value);
      } else {
        FilterNone(IsBackupFile, []);
      }
    }
    assert folders[..|folders|] == folders;
  }

  /** One more folder's backup files follow those of the folders before it. */
  lemma CollectedStep(folders: seq<Option<seq<FileEntry>>>, n: nat)
    requires n < |folders|
    ensures Filter(IsBackupFile, Listed(folders[..n + 1]))
      == Filter(IsBackupFile, Listed(folders[..n])) + Filter(IsBackupFile, Contents(folders[n]))
  {
    ListedSnoc(folders[..n], folders[n]);
    assert folders[..n + 1] == folders[..n] + [folders[n]];
    FilterAppend(IsBackupFile, Listed(folders[..n]), Contents(folders[n]));
  }

  /** The files of a folder; none when it does not exist or cannot be listed. */
  function Contents(folder: Option<seq<FileEntry>>): seq<FileEntry>
  {
    if folder.Some? then folder.value else []
  }

  /** The files of the listed folders, one folder after the other. */
  function Listed(folders: seq<Option<seq<FileEntry>>>): seq<FileEntry>
  {
    if folders == [] then [] else Listed(folders[..|folders| - 1]) + Contents(folders[|folders| - 1])
  }

  lemma ListedSnoc(folders: seq<Option<seq<FileEntry>>>, f: Option<seq<FileEntry>>)
    ensures Listed(folders + [f]) == Listed(folders) + Contents(f)
  {
    assert (folders + [f])[..|folders|] == folders;
  }

  lemma ListedPair(a: Option<seq<FileEntry>>, b: Option<seq<FileEntry>>)
    ensures Listed([a, b]) == Contents(a) + Contents(b)
  {
    assert [a, b][..1] == [a];
    assert [a][..0] == [];
    assert Listed([a]) == Listed([]) + Contents(a);
    assert Listed([a, b]) == Listed([a]) + Contents(b);
  }

  /** The text shown for the latest backup; `format` renders a time stamp as a date. */
  function BackupInfoText(latest: Option<FileEntry>, format: int -> string): (r: Option<string>)
    ensures r.None? <==> latest.None?
    ensures r.Some? ==> StartsWith(r.value, "Last backup: " + format(latest.value.lastModified))
    ensures r.Some? ==>
      EndsWith(r.value, if latest.value.internal then "(Internal Storage)" else "(External Storage)")
  {
    if latest.None? then None
    else
      var head := "Last backup: " + format(latest.value.lastModified);
      var place := if latest.value.internal then "(Internal Storage)" else "(External Storage)";
      AffixesOfConcat(head, " ", place);
      Some(head + " " + place)
  }
}
