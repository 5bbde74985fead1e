/**
 * The recent-transactions list of ui/HomeFragment.kt (groupTransactionsByDate):
 * the transactions grouped by their local date, newest date first, each
 * group led by a header with a label and the day's net total.
 */
module HomeTransactionList {
  import opened Ledger
  import opened Seqs
  import opened Sorting
  import opened Grouping
  import opened Totals

  /** The label kinds of a date header; the date text itself is not modelled. */
  datatype HeaderLabel = Today | Yesterday | ThisYear | OtherYear

  datatype ListItem =
    | DateHeader(day: int, caption: HeaderLabel, dayTotal: real)
    | TransactionItem(transaction: Transaction)

  /**
   * The local date of a transaction: `zone` maps a time stamp to a day
   * number in the device's zone (consecutive days, consecutive numbers).
   */
  function DayKey(zone: int -> int): Transaction -> int
  {
    (t: Transaction) => zone(t.date)
  }

  /** The order of sortedByDescending on the dates. */
  function Newest(): (int, int) -> bool
  {
    (a: int, b: int) => a >= b
  }

  lemma NewestIsPreorder()
    ensures TotalPreorder(Newest())
  {
  }

  /** "Today", "Yesterday", a date in this year, or a date with its year. */
  function Label(day: int, today: int, yearOf: int -> int): (l: HeaderLabel)
    ensures l == Today <==> day == today
    ensures l == Yesterday <==> day == today - 1
  {
    if day == today then Today
    else if day == today - 1 then Yesterday
    else if yearOf(day) == yearOf(today) then ThisYear
    else OtherYear
  }

  /** An income counts for the day, an expense against it. */
  function Signed(t: Transaction): real
  {
    if t.txType == EXPENSE then -t.amount else t.amount
  }

  /** The signed sum of a list is its balance: incomes less expenses. */
  lemma {:induction false} SignedSumIsBalance(ts: seq<Transaction>)
    ensures SumBy(Signed, ts) == Total(Incomes(ts)) - Total(Expenses(ts))
  {
    if ts != [] {
      SignedSumIsBalance(ts[1..]);
      assert [ts[0]] + ts[1..] == ts;
      FilterAppend(IsIncome, [ts[0]], ts[1..]);
      FilterAppend(IsExpense, [ts[0]], ts[1..]);
      SumByAppend(Amount, Filter(IsIncome, [ts[0]]), Incomes(ts[1..]));
      SumByAppend(Amount, Filter(IsExpense, [ts[0]]), Expenses(ts[1..]));
    }
  }

  function AsItems(ts: seq<Transaction>): (r: seq<ListItem>)
    ensures |r| == |ts|
  {
    if ts == [] then [] else [TransactionItem(ts[0])] + AsItems(ts[1..])
  }

  /** The header and the transactions of one day. */
  function Section(zone: int -> int, today: int, yearOf: int -> int, ts: seq<Transaction>, day: int): seq<ListItem>
  {
    var inDay := Group(DayKey(zone), ts, day);
    [DateHeader(day, Label(day, today, yearOf), SumBy(Signed, inDay))] + AsItems(inDay)
  }

  function Sections(zone: int -> int, today: int, yearOf: int -> int, ts: seq<Transaction>, days: seq<int>): seq<ListItem>
  {
    if days == [] then []
    else Section(zone, today, yearOf, ts, days[0]) + Sections(zone, today, yearOf, ts, days[1..])
  }

  /** The distinct dates of the list, newest first. */
  function DaysNewestFirst(zone: int -> int, ts: seq<Transaction>): seq<int>
  {
    Sort(Newest(), Keys(DayKey(zone), ts))
  }

  /** The list as the screen shows it. */
  function Grouped(zone: int -> int, today: int, yearOf: int -> int, ts: seq<Transaction>): seq<ListItem>
  {
    Sections(zone, today, yearOf, ts, DaysNewestFirst(zone, ts))
  }

  lemma {:induction false} AsItemsSnoc(ts: seq<Transaction>, t: Transaction)
    ensures AsItems(ts + [t]) == AsItems(ts) + [TransactionItem(t)]
  {
    if ts != [] {
      assert (ts + [t])[1..] == ts[1..] + [t];
      AsItemsSnoc(ts[1..], t);
    }
  }

  lemma {:induction false} SectionsSnoc(zone: int -> int, today: int, yearOf: int -> int, ts: seq<Transaction>, days: seq<int>, d: int)
    ensures Sections(zone, today, yearOf, ts, days + [d])
      == Sections(zone, today, yearOf, ts, days) + Section(zone, today, yearOf, ts, d)
  {
    if days != [] {
      assert (days + [d])[1..] == days[1..] + [d];
      SectionsSnoc(zone, today, yearOf, ts, days[1..], d);
    } else {
      assert Sections(zone, today, yearOf, ts, [d]) == Section(zone, today, yearOf, ts, d) + Sections(zone, today, yearOf, ts, []);
    }
  }

  lemma SectionsPrefixStep(zone: int -> int, today: int, yearOf: int -> int, ts: seq<Transaction>, days: seq<int>, i: nat)
    requires i < |days|
    ensures var inDay := Group(DayKey(zone), ts, days[i]);
      Sections(zone, today, yearOf, ts, days[..i + 1]) == Sections(zone, today, yearOf, ts, days[..i])
        + [DateHeader(days[i], Label(days[i], today, yearOf), SumBy(Signed, inDay))] + AsItems(inDay)
  {
    assert days[..i + 1] == days[..i] + [days[i]];
    SectionsSnoc(zone, today, yearOf, ts, days[..i], days[i]);
  }

  /**
   * groupTransactionsByDate: for each date, newest first, a header with the
   * day's net total and then the day's transactions, appended one by one.
   */
  method GroupTransactionsByDate(zone: int -> int, today: int, yearOf: int -> int, ts: seq<Transaction>)
    returns (result: seq<ListItem>)
    ensures result == Grouped(zone, today, yearOf, ts)
  {
    var days := DaysNewestFirst(zone, ts);
    result := [];
    for i := 0 to |days|
      invariant result == Sections(zone, today, yearOf, ts, days[..i])
    {
      var day := days[i];
      var inDay := Group(DayKey(zone), ts, day);
      var dailyTotal := SumBy(Signed, inDay);
      SectionsPrefixStep(zone, today, yearOf, ts, days, i);
      result := result + [DateHeader(day, Label(day, today, yearOf), dailyTotal)];
      result := AppendTransactions(result, inDay);
    }
    assert days[..|days|] == days;
  }

  /** transactionsInDay.forEach { result.add(TransactionItem(it)) } */
  method AppendTransactions(items: seq<ListItem>, ts: seq<Transaction>) returns (result: seq<ListItem>)
    ensures result == items + AsItems(ts)
  {
    result := items;
    for j := 0 to |ts|
      invariant result == items + AsItems(ts[..j])
    {
      AsItemsSnoc(ts[..j], ts[j]);
      assert ts[..j + 1] == ts[..j] + [ts[j]];
      result := result + [TransactionItem(ts[j])];
    }
    assert ts[..|ts|] == ts;
  }

  /** The dates of the headers, in list order. */
  function Headers(items: seq<ListItem>): seq<int>
  {
    if items == [] then []
    else (if items[0].DateHeader? then [items[0].day] else []) + Headers(items[1..])
  }

  /** The transactions of the list, in list order. */
  function TransactionsOf(items: seq<ListItem>): seq<Transaction>
  {
    if items == [] then []
    else (if items[0].TransactionItem? then [items[0].transaction] else []) + TransactionsOf(items[1..])
  }

  /** The day totals of the headers, added up. */
  function HeaderTotal(items: seq<ListItem>): real
  {
    if items == [] then 0.0
    else (if items[0].DateHeader? then items[0].dayTotal else 0.0) + HeaderTotal(items[1..])
  }

  lemma {:induction false} ListAppend(a: seq<ListItem>, b: seq<ListItem>)
    ensures Headers(a + b) == Headers(a) + Headers(b)
    ensures TransactionsOf(a + b) == TransactionsOf(a) + TransactionsOf(b)
    ensures HeaderTotal(a + b) == HeaderTotal(a) + HeaderTotal(b)
  {
    if a != [] {
      assert (a + b)[0] == a[0];
      assert (a + b)[1..] == a[1..] + b;
      ListAppend(a[1..], b);
    } else {
      assert a + b == b;
    }
  }

  lemma {:induction false} ItemsOfTransactions(ts: seq<Transaction>)
    ensures Headers(AsItems(ts)) == [] && TransactionsOf(AsItems(ts)) == ts && HeaderTotal(AsItems(ts)) == 0.0
  {
    if ts != [] {
      ItemsOfTransactions(ts[1..]);
      ListAppend([TransactionItem(ts[0])], AsItems(ts[1..]));
    }
  }

  /** The headers are the dates asked for; the items are their groups, one after the other. */
  lemma {:induction false} SectionsContents(zone: int -> int, today: int, yearOf: int -> int, ts: seq<Transaction>, days: seq<int>)
    ensures Headers(Sections(zone, today, yearOf, ts, days)) == days
    ensures TransactionsOf(Sections(zone, today, yearOf, ts, days)) == Concat(DayKey(zone), ts, days)
    ensures HeaderTotal(Sections(zone, today, yearOf, ts, days)) == SumBy(Signed, Concat(DayKey(zone), ts, days))
  {
    if days != [] {
      var d := days[0];
      var inDay := Group(DayKey(zone), ts, d);
      SectionsContents(zone, today, yearOf, ts, days[1..]);
      SectionContents(zone, today, yearOf, ts, d);
      ListAppend(Section(zone, today, yearOf, ts, d), Sections(zone, today, yearOf, ts, days[1..]));
      SumByAppend(Signed, inDay, Concat(DayKey(zone), ts, days[1..]));
    }
  }

  lemma SectionContents(zone: int -> int, today: int, yearOf: int -> int, ts: seq<Transaction>, d: int)
    ensures Headers(Section(zone, today, yearOf, ts, d)) == [d]
    ensures TransactionsOf(Section(zone, today, yearOf, ts, d)) == Group(DayKey(zone), ts, d)
    ensures HeaderTotal(Section(zone, today, yearOf, ts, d)) == SumBy(Signed, Group(DayKey(zone), ts, d))
  {
    var inDay := Group(DayKey(zone), ts, d);
    var header := [DateHeader(d, Label(d, today, yearOf), SumBy(Signed, inDay))];
    ItemsOfTransactions(inDay);
    ListAppend(header, AsItems(inDay));
    assert Headers(header) == [d];
  }

  /** The sorted dates have no repetition and hold the date of every transaction. */
  lemma DaysFacts(zone: int -> int, ts: seq<Transaction>)
    ensures Distinct(DaysNewestFirst(zone, ts))
    ensures forall i :: 0 <= i < |ts| ==> zone(ts[i].date) in DaysNewestFirst(zone, ts)
    ensures multiset(DaysNewestFirst(zone, ts)) == multiset(Keys(DayKey(zone), ts))
  {
    var ks := Keys(DayKey(zone), ts);
    SortPermutes(Newest(), ks);
    DistinctPermutation(ks, DaysNewestFirst(zone, ts));
    forall i | 0 <= i < |ts|
      ensures zone(ts[i].date) in DaysNewestFirst(zone, ts)
    {
      assert DayKey(zone)(ts[i]) in ks;
      assert zone(ts[i].date) in multiset(ks);
    }
  }

  /** The headers run from the newest date to the oldest, no date twice, and every transaction's date has one. */
  lemma {:induction false} HeadersNewestFirst(zone: int -> int, today: int, yearOf: int -> int, ts: seq<Transaction>)
    ensures var hs := Headers(Grouped(zone, today, yearOf, ts));
      && (forall i, j :: 0 <= i < j < |hs| ==> hs[i] > hs[j])
      && (forall i :: 0 <= i < |ts| ==> zone(ts[i].date) in hs)
  {
    var days := DaysNewestFirst(zone, ts);
    SectionsContents(zone, today, yearOf, ts, days);
    DaysFacts(zone, ts);
    NewestIsPreorder();
    SortSorts(Newest(), Keys(DayKey(zone), ts));
    forall i, j | 0 <= i < j < |days|
      ensures days[i] > days[j]
    {
      assert Newest()(days[i], days[j]);
    }
  }

  /** Every transaction appears in the list exactly as often as in the input. */
  lemma {:induction false} GroupedKeepsTransactions(zone: int -> int, today: int, yearOf: int -> int, ts: seq<Transaction>)
    ensures multiset(TransactionsOf(Grouped(zone, today, yearOf, ts))) == multiset(ts)
  {
    var days := DaysNewestFirst(zone, ts);
    SectionsContents(zone, today, yearOf, ts, days);
    DaysFacts(zone, ts);
    forall i | 0 <= i < |ts|
      ensures DayKey(zone)(ts[i]) in days
    {
    }
    CoveringKeysPartition(DayKey(zone), ts, days);
  }

  /** The day totals add up to the balance of the listed transactions. */
  lemma {:induction false} DayTotalsAddUp(zone: int -> int, today: int, yearOf: int -> int, ts: seq<Transaction>)
    ensures HeaderTotal(Grouped(zone, today, yearOf, ts)) == Total(Incomes(ts)) - Total(Expenses(ts))
  {
    var days := DaysNewestFirst(zone, ts);
    SectionsContents(zone, today, yearOf, ts, days);
    GroupedKeepsTransactions(zone, today, yearOf, ts);
    SumByPermutation(Signed, Concat(DayKey(zone), ts, days), ts);
    SignedSumIsBalance(ts);
  }
}
