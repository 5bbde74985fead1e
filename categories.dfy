/**
 * ui/CategoriesFragment.kt: the category manager. New and edited categories
 * are refused when their trimmed name is blank or when a category of the same
 * type already has that name up to letter case; a category named by any
 * transaction cannot be deleted; the list is shown grouped by type in the enum's
 * order, each type by name.
 */
module CategoriesScreen {
  import opened Ledger
  import opened Text
  import opened Seqs
  import opened Sorting
  import opened UtilPrefs

  /** No two categories of one type whose names are equal up to letter case. */
  ghost predicate NoCaseClash(cs: seq<Category>)
  {
    forall i, j :: 0 <= i < j < |cs| && cs[i].txType == cs[j].txType ==> !EqualsIgnoreCase(cs[i].name, cs[j].name)
  }

  /** What a dialog's positive button leads to. */
  datatype Outcome = BlankName | Duplicate | Saved(categories: seq<Category>)

  /** A category of the given type already carrying the name, up to case. */
  function Clashes(name: string, txType: TxType): Category -> bool
  {
    (c: Category) => EqualsIgnoreCase(c.name, name) && c.txType == txType
  }

  /** The entry a dialog was opened on, matched by name and type as the code matches it. */
  function IsEntry(c: Category): Category -> bool
  {
    (d: Category) => d.name == c.name && d.txType == c.txType
  }

  /** A clash with any entry other than the one being edited. */
  function ClashesOther(name: string, txType: TxType, original: Category): Category -> bool
  {
    (c: Category) => EqualsIgnoreCase(c.name, name) && c.txType == txType
      && !(c.name == original.name && c.txType == original.txType)
  }

  /** The add dialog: the trimmed name must not be blank nor clash with a category of that type. */
  function AddCategory(cs: seq<Category>, nameText: string, emoji: string, txType: TxType): (r: Outcome)
    ensures r == BlankName <==> IsBlank(nameText)
    ensures r == Duplicate <==>
      !IsBlank(nameText) && exists i :: 0 <= i < |cs| && cs[i].txType == txType && EqualsIgnoreCase(cs[i].name, Trim(nameText))
    ensures r.Saved? ==> r.categories == cs + [Category(Trim(nameText), txType, emoji)]
  {
    var name := Trim(nameText);
    if name == [] then BlankName
    else if Any(Clashes(name, txType), cs) then Duplicate
    else Saved(cs + [Category(name, txType, emoji)])
  }

  /** Adding keeps the names of each type distinct up to case. */
  lemma AddKeepsNamesDistinct(cs: seq<Category>, nameText: string, emoji: string, txType: TxType)
    requires NoCaseClash(cs) && AddCategory(cs, nameText, emoji, txType).Saved?
    ensures NoCaseClash(AddCategory(cs, nameText, emoji, txType).categories)
  {
    var r := AddCategory(cs, nameText, emoji, txType).categories;
    forall i, j | 0 <= i < j < |r| && r[i].txType == r[j].txType
      ensures !EqualsIgnoreCase(r[i].name, r[j].name)
    {
      if j == |cs| {
        assert r[i] == cs[i];
      }
    }
  }

  /** A name that was just added is refused the second time, whatever its case. */
  lemma AddTwiceIsDuplicate(cs: seq<Category>, nameText: string, emoji: string, again: string, emoji2: string, txType: TxType)
    requires AddCategory(cs, nameText, emoji, txType).Saved?
    requires EqualsIgnoreCase(Trim(again), Trim(nameText))
    ensures AddCategory(AddCategory(cs, nameText, emoji, txType).categories, again, emoji2, txType) == Duplicate
  {
    var r := AddCategory(cs, nameText, emoji, txType).categories;
    assert r[|cs|].name == Trim(nameText);
    assert EqualsIgnoreCase(r[|cs|].name, Trim(again));
  }

  /** Every entry matching `original` replaced by `updated`; the others kept. */
  function Replace(cs: seq<Category>, original: Category, updated: Category): (r: seq<Category>)
    ensures |r| == |cs|
    ensures forall i :: 0 <= i < |cs| ==> r[i] == if IsEntry(original)(cs[i]) then updated else cs[i]
  {
    Map((c: Category) => if IsEntry(original)(c) then updated else c, cs)
  }

  /**
   * The edit dialog on `original`: the same checks as adding, except that the
   * entry being edited does not count as a clash.
   */
  function EditCategory(cs: seq<Category>, original: Category, nameText: string, emoji: string, txType: TxType): (r: Outcome)
    ensures r == BlankName <==> IsBlank(nameText)
    ensures r == Duplicate <==>
      !IsBlank(nameText) && exists i :: 0 <= i < |cs| && ClashesOther(Trim(nameText), txType, original)(cs[i])
    ensures r.Saved? ==> r.categories == Replace(cs, original, Category(Trim(nameText), txType, emoji))
  {
    var name := Trim(nameText);
    if name == [] then BlankName
    else if Any(ClashesOther(name, txType, original), cs) then Duplicate
    else Saved(Replace(cs, original, Category(name, txType, emoji)))
  }

  /** Editing keeps the names of each type distinct up to case. */
  lemma EditKeepsNamesDistinct(cs: seq<Category>, original: Category, nameText: string, emoji: string, txType: TxType)
    requires NoCaseClash(cs) && EditCategory(cs, original, nameText, emoji, txType).Saved?
    ensures NoCaseClash(EditCategory(cs, original, nameText, emoji, txType).categories)
  {
    var name := Trim(nameText);
    var r := EditCategory(cs, original, nameText, emoji, txType).categories;
    forall i, j | 0 <= i < j < |r| && r[i].txType == r[j].txType
      ensures !EqualsIgnoreCase(r[i].name, r[j].name)
    {
      if IsEntry(original)(cs[i]) && IsEntry(original)(cs[j]) {
        assert cs[i].name == cs[j].name && cs[i].txType == cs[j].txType;
        assert EqualsIgnoreCase(cs[i].name, cs[j].name);
        assert false;
      } else if IsEntry(original)(cs[i]) {
        assert r[j] == cs[j] && r[i].name == name;
        assert !ClashesOther(name, txType, original)(cs[j]);
      } else if IsEntry(original)(cs[j]) {
        assert r[i] == cs[i] && r[j].name == name;
        assert !ClashesOther(name, txType, original)(cs[i]);
      }
    }
  }

  /** Whether a transaction names the category (by name only, case-sensitive). */
  function IsUsed(ts: seq<Transaction>, c: Category): (r: bool)
    ensures r <==> exists i :: 0 <= i < |ts| && ts[i].category == c.name
  {
    Any((t: Transaction) => t.category == c.name, ts)
  }

  function IsNotEntry(c: Category): Category -> bool
  {
    (d: Category) => !(d.name == c.name && d.txType == c.txType)
  }

  /** deleteCategory: every entry with that name and type removed, the rest in order. */
  function DeleteCategory(cs: seq<Category>, c: Category): (r: seq<Category>)
    ensures IsSubsequence(r, cs)
    ensures forall i :: 0 <= i < |r| ==> !(r[i].name == c.name && r[i].txType == c.txType)
    ensures forall i :: 0 <= i < |cs| && !(cs[i].name == c.name && cs[i].txType == c.txType) ==> cs[i] in r
  {
    Filter(IsNotEntry(c), cs)
  }

  /** Deleting keeps the names of each type distinct up to case. */
  lemma {:induction false} DeleteKeepsNamesDistinct(cs: seq<Category>, c: Category)
    requires NoCaseClash(cs)
    ensures NoCaseClash(DeleteCategory(cs, c))
  {
    FilterKeepsNoCaseClash(IsNotEntry(c), cs);
  }

  lemma {:induction false} FilterKeepsNoCaseClash(p: Category -> bool, cs: seq<Category>)
    requires NoCaseClash(cs)
    ensures NoCaseClash(Filter(p, cs))
  {
    if cs != [] {
      var tail := cs[1..];
      assert NoCaseClash(tail) by {
        forall i, j | 0 <= i < j < |tail| && tail[i].txType == tail[j].txType
          ensures !EqualsIgnoreCase(tail[i].name, tail[j].name)
        {
          assert tail[i] == cs[i + 1] && tail[j] == cs[j + 1];
        }
      }
      FilterKeepsNoCaseClash(p, tail);
      var rest := Filter(p, tail);
      if p(cs[0]) {
        var r := Filter(p, cs);
        assert r == [cs[0]] + rest;
        forall i, j | 0 <= i < j < |r| && r[i].txType == r[j].txType
          ensures !EqualsIgnoreCase(r[i].name, r[j].name)
        {
          if i == 0 {
            assert r[j] == rest[j - 1] && rest[j - 1] in tail;
            var k :| 0 <= k < |tail| && tail[k] == r[j];
            assert cs[k + 1] == r[j];
          } else {
            assert r[i] == rest[i - 1] && r[j] == rest[j - 1];
          }
        }
      }
    }
  }

  /** The built-in list has no clash. */
  lemma DefaultCategoriesHaveNoClash()
    ensures NoCaseClash(DefaultCategories())
  {
    var cs := DefaultCategories();
    forall i, j | 0 <= i < j < |cs| && cs[i].txType == cs[j].txType
      ensures !EqualsIgnoreCase(cs[i].name, cs[j].name)
    {
      assert LowerAscii(cs[i].name[0]) != LowerAscii(cs[j].name[0]) || |cs[i].name| != |cs[j].name|;
    }
  }

  /** The adapter's order: by the type's enum ordinal, then by name (compareBy type, name). */
  function ByTypeThenName(): (Category, Category) -> bool
  {
    (a: Category, b: Category) =>
      Ordinal(a.txType) < Ordinal(b.txType) || (a.txType == b.txType && StrLe(a.name, b.name))
  }

  lemma ByTypeThenNameIsPreorder()
    ensures TotalPreorder(ByTypeThenName())
  {
    var le := ByTypeThenName();
    forall a: Category, b: Category
      ensures le(a, b) || le(b, a)
    {
      StrLeTotal(a.name, b.name);
    }
    forall a: Category, b: Category, c: Category | le(a, b) && le(b, c)
      ensures le(a, c)
    {
      if a.txType == b.txType && b.txType == c.txType {
        StrLeTransitive(a.name, b.name, c.name);
      }
    }
  }

  /** updateItems: the list the screen shows. */
  function DisplayOrder(cs: seq<Category>): seq<Category>
  {
    Sort(ByTypeThenName(), cs)
  }

  /** The shown list holds the same entries, grouped by type ordinal, each type in name order. */
  lemma DisplayOrderFacts(cs: seq<Category>)
    ensures multiset(DisplayOrder(cs)) == multiset(cs)
    ensures var d := DisplayOrder(cs);
      forall i, j :: 0 <= i < j < |d| ==>
        Ordinal(d[i].txType) <= Ordinal(d[j].txType)
        && (d[i].txType == d[j].txType ==> StrLe(d[i].name, d[j].name))
  {
    SortPermutes(ByTypeThenName(), cs);
    ByTypeThenNameIsPreorder();
    SortSorts(ByTypeThenName(), cs);
    var d := DisplayOrder(cs);
    forall i, j | 0 <= i < j < |d|
      ensures Ordinal(d[i].txType) <= Ordinal(d[j].txType)
    {
      assert ByTypeThenName()(d[i], d[j]);
    }
  }

  /** The fragment's list adapter. */
  class CategoryList {
    var items: seq<Category>

    constructor ()
      ensures items == []
    {
      items := [];
    }

    method UpdateItems(newItems: seq<Category>)
      modifies this
      ensures items == DisplayOrder(newItems)
    {
      items := DisplayOrder(newItems);
    }
  }

  /** The add dialog's positive button: saves and shows the longer list, or refuses. */
  method OnAddCategory(prefs: Prefs, list: CategoryList, nameText: string, emoji: string, txType: TxType)
    returns (outcome: Outcome)
    requires prefs.Valid() && prefs.bound
    modifies prefs, list
    ensures outcome == AddCategory(old(prefs.LoadCategories()), nameText, emoji, txType)
    ensures prefs.Valid() && prefs.bound
    ensures !outcome.Saved? ==> prefs.entries == old(prefs.entries) && list.items == old(list.items)
    ensures outcome.Saved? ==> prefs.LoadCategories() == outcome.categories
    ensures outcome.Saved? ==> list.items == DisplayOrder(outcome.categories)
    ensures outcome.Saved? ==> prefs.LoadTransactions() == old(prefs.LoadTransactions())
    ensures outcome.Saved? ==> prefs.writes == old(prefs.writes) + [KeyCategories]
  {
    outcome := AddCategory(prefs.LoadCategories(), nameText, emoji, txType);
    if outcome.Saved? {
      WritesAreIndependent(prefs.entries, [], outcome.categories, 0.0, "");
      prefs.SaveCategories(outcome.categories);
      list.UpdateItems(outcome.categories);
    }
  }

  /** The edit dialog's positive button. */
  method OnEditCategory(prefs: Prefs, list: CategoryList, original: Category, nameText: string, emoji: string, txType: TxType)
    returns (outcome: Outcome)
    requires prefs.Valid() && prefs.bound
    modifies prefs, list
    ensures outcome == EditCategory(old(prefs.LoadCategories()), original, nameText, emoji, txType)
    ensures prefs.Valid() && prefs.bound
    ensures !outcome.Saved? ==> prefs.entries == old(prefs.entries) && list.items == old(list.items)
    ensures outcome.Saved? ==> prefs.LoadCategories() == outcome.categories
    ensures outcome.Saved? ==> list.items == DisplayOrder(outcome.categories)
    ensures outcome.Saved? ==> prefs.LoadTransactions() == old(prefs.LoadTransactions())
    ensures outcome.Saved? ==> prefs.writes == old(prefs.writes) + [KeyCategories]
  {
    outcome := EditCategory(prefs.LoadCategories(), original, nameText, emoji, txType);
    if outcome.Saved? {
      WritesAreIndependent(prefs.entries, [], outcome.categories, 0.0, "");
      prefs.SaveCategories(outcome.categories);
      list.UpdateItems(outcome.categories);
    }
  }

  /**
   * showDeleteCategoryDialog and deleteCategory: a category in use is never
   * removed; otherwise it is removed when the user confirms.
   */
  method OnDeleteCategory(prefs: Prefs, list: CategoryList, c: Category, confirmed: bool) returns (deleted: bool)
    requires prefs.Valid() && prefs.bound
    modifies prefs, list
    ensures deleted <==> !IsUsed(old(prefs.LoadTransactions()), c) && confirmed
    ensures prefs.Valid() && prefs.bound
    ensures !deleted ==> prefs.entries == old(prefs.entries) && list.items == old(list.items)
    ensures deleted ==> prefs.LoadCategories() == DeleteCategory(old(prefs.LoadCategories()), c)
    ensures deleted ==> list.items == DisplayOrder(prefs.LoadCategories())
    ensures deleted ==> prefs.LoadTransactions() == old(prefs.LoadTransactions())
    ensures deleted ==> prefs.writes == old(prefs.writes) + [KeyCategories]
  {
    if IsUsed(prefs.LoadTransactions(), c) || !confirmed {
      return false;
    }
    var updated := DeleteCategory(prefs.LoadCategories(), c);
    WritesAreIndependent(prefs.entries, [], updated, 0.0, "");
    prefs.SaveCategories(updated);
    list.UpdateItems(updated);
    deleted := true;
  }
}
