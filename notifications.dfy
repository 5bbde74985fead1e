/**
 * notification/NotificationHelper.kt: the budget-exceeded alert, the
 * approaching-budget alert and the daily reminder. Posting goes to the
 * system's notification shade, where a notification replaces an earlier one
 * with the same id.
 */
module AppNotifications {
  import opened Ledger
  import opened Text
  import opened Seqs
  import opened Totals
  import opened UtilPrefs

  const IdBudgetApproach := 100
  const IdBudgetExceeded := 101
  const IdDailyReminder := 102

  datatype Notice = Notice(title: string, text: string)

  /**
   * An amount in hundredths, rounded half away from zero as "%.2f" rounds:
   * the nearest whole number of cents, a tie going away from zero.
   */
  function Cents(x: real): (c: int)
    ensures x >= 0.0 ==> c >= 0 && c as real - 0.5 <= x * 100.0 < c as real + 0.5
    ensures x < 0.0 ==> c <= 0 && c as real - 0.5 < x * 100.0 <= c as real + 0.5
  {
    if x >= 0.0 then (x * 100.0 + 0.5).Floor else -((-x) * 100.0 + 0.5).Floor
  }

  /** Two digits for 0..99, with a leading zero. */
  function TwoDigits(n: nat): (s: string)
    requires n < 100
    ensures |s| == 2 && IsDigits(s) && DecimalValue(s) == n
  {
    var s := [DigitChar(n / 10), DigitChar(n % 10)];
    assert s[..1] == [DigitChar(n / 10)] && [DigitChar(n / 10)][..0] == [];
    assert DecimalValue(s[..1]) == n / 10;
    s
  }

  /** String.format("%.2f", x): a sign for a negative value, whole units, a point, two decimals. */
  function Fixed2(x: real): string
  {
    var c := Cents(x);
    var m := if c < 0 then -c else c;
    (if x < 0.0 then "-" else "") + NatToString(m / 100) + "." + TwoDigits(m % 100)
  }

  /** The text names the rounded amount: its digits read back as the number of cents. */
  lemma {:induction false} Fixed2Denotes(x: real)
    ensures var r := Fixed2(x);
      && |r| >= 4 && r[|r| - 3] == '.'
      && (r[0] == '-' <==> x < 0.0)
      && var whole := if x < 0.0 then r[1..|r| - 3] else r[..|r| - 3];
         IsDigits(whole) && IsDigits(r[|r| - 2..])
         && DecimalValue(whole) * 100 + DecimalValue(r[|r| - 2..]) == (if Cents(x) < 0 then -Cents(x) else Cents(x))
  {
    var c := Cents(x);
    var m := if c < 0 then -c else c;
    var sign := if x < 0.0 then "-" else "";
    var w := NatToString(m / 100);
    var f := TwoDigits(m % 100);
    var r := Fixed2(x);
    assert r == sign + w + "." + f;
    NatToStringValue(m / 100);
    assert r[|r| - 2..] == f;
    if x < 0.0 {
      assert r[1..|r| - 3] == w;
    } else {
      assert r[..|r| - 3] == w;
    }
  }

  /** The symbol or code put before an amount. */
  function CurrencyPrefix(currency: string): (p: string)
    ensures currency !in {"USD", "LKR", "EUR", "GBP"} ==> p == currency + " "
  {
    if currency == "USD" then "$"
    else if currency == "LKR" then "Rs. "
    else if currency == "EUR" then "€"
    else if currency == "GBP" then "£"
    else currency + " "
  }

  /** formatAmount: the prefix of the currency, then the amount to two decimals. */
  function FormatAmount(amount: real, currency: string): (r: string)
    ensures StartsWith(r, CurrencyPrefix(currency)) && EndsWith(r, Fixed2(amount))
  {
    AffixesOfConcat(CurrencyPrefix(currency), [], Fixed2(amount));
    assert CurrencyPrefix(currency) + [] + Fixed2(amount) == CurrencyPrefix(currency) + Fixed2(amount);
    CurrencyPrefix(currency) + Fixed2(amount)
  }

  /** An amount formatted for one known currency never reads as the same amount in another. */
  lemma KnownCurrenciesFormatApart(amount: real, a: string, b: string)
    requires a in {"USD", "LKR", "EUR", "GBP"} && b in {"USD", "LKR", "EUR", "GBP"} && a != b
    ensures FormatAmount(amount, a) != FormatAmount(amount, b)
  {
    var p, q := CurrencyPrefix(a), CurrencyPrefix(b);
    assert FormatAmount(amount, a)[0] == p[0];
    assert FormatAmount(amount, b)[0] == q[0];
  }

  /** The spent figure of the approaching alert, derived back from the percentage. */
  function SpentFromPercentage(budget: real, percentage: int): (spent: real)
    ensures 0 <= percentage <= 100 && budget > 0.0 ==> 0.0 <= spent <= budget
    ensures budget > 0.0 ==> (spent == budget <==> percentage == 100)
  {
    if budget > 0.0 then
      PercentOfBudget(budget, percentage as real);
      budget * percentage as real / 100.0
    else
      budget * percentage as real / 100.0
  }

  lemma PercentOfBudget(budget: real, p: real)
    requires budget > 0.0
    ensures 0.0 <= p <= 100.0 ==> 0.0 <= budget * p / 100.0 <= budget
    ensures budget * p / 100.0 == budget <==> p == 100.0
  {
    var s := budget * p / 100.0;
    assert s * 100.0 == budget * p;
    if 0.0 <= p <= 100.0 {
      assert budget * p <= budget * 100.0;
    }
    if s == budget {
      assert budget * (p - 100.0) == 0.0;
    }
  }

  /**
   * The approaching alert: the percentage used, then a spent figure derived
   * back from that percentage (not the month's actual spending), then the budget.
   */
  function ApproachingText(budget: real, percentage: int, currency: string): (s: string)
    ensures StartsWith(s, "You've used " + IntToString(percentage) + "% of your monthly budget ("
      + FormatAmount(SpentFromPercentage(budget, percentage), currency))
    ensures EndsWith(s, " of " + FormatAmount(budget, currency) + ")")
  {
    var head := "You've used " + IntToString(percentage) + "% of your monthly budget ("
      + FormatAmount(SpentFromPercentage(budget, percentage), currency);
    var tail := " of " + FormatAmount(budget, currency) + ")";
    AffixesOfConcat(head, [], tail);
    assert head + [] + tail == head + tail;
    head + tail
  }

  /** The exceeded alert reports every expense ever recorded, not only this month's. */
  function ExceededSpent(ts: seq<Transaction>): real
  {
    Total(Expenses(ts))
  }

  /** The figure is all the money ever recorded less the incomes: no month is singled out. */
  lemma ExceededSpentIsAllTime(ts: seq<Transaction>)
    ensures ExceededSpent(ts) == Total(ts) - Total(Incomes(ts))
  {
    TotalSplits(ts);
  }

  const ExceededLead := "You have exceeded your monthly budget by "

  /** The exceeded alert: the overrun past the budget, then the spent figure and the budget. */
  function ExceededText(spent: real, budget: real, currency: string): (s: string)
    ensures StartsWith(s, ExceededLead + FormatAmount(spent - budget, currency))
    ensures EndsWith(s, " of " + FormatAmount(budget, currency) + ")")
  {
    var head := ExceededLead + FormatAmount(spent - budget, currency);
    var middle := "! (" + FormatAmount(spent, currency);
    var tail := " of " + FormatAmount(budget, currency) + ")";
    AffixesOfConcat(head, middle, tail);
    head + middle + tail
  }

  /** A transaction falls on today's calendar date: same year, month and day of the month. */
  predicate SameDate(cal: Calendar, now: int, t: Transaction)
  {
    cal(t.date).year == cal(now).year && cal(t.date).month == cal(now).month
      && cal(t.date).dayOfMonth == cal(now).dayOfMonth
  }

  function HasAddedTransactionToday(cal: Calendar, now: int, ts: seq<Transaction>): (r: bool)
    ensures r <==> exists i :: 0 <= i < |ts| && SameDate(cal, now, ts[i])
  {
    Any((t: Transaction) => SameDate(cal, now, t), ts)
  }

  /** The shade: what is shown under each id, and how many posts were made. */
  class Shade {
    var shown: map<int, Notice>
    ghost var posts: nat
    /** Whether the app holds the post-notifications permission (always true before Android 13). */
    const permitted: bool
    /** Whether a post straight to the system notification manager is delivered. */
    const directDelivers: bool

    constructor (permitted: bool, directDelivers: bool)
      ensures shown == map[] && posts == 0
      ensures this.permitted == permitted && this.directDelivers == directDelivers
    {
      shown := map[];
      posts := 0;
      this.permitted := permitted;
      this.directDelivers := directDelivers;
    }

    /** A post through the compat manager, made only with the permission. */
    method Notify(id: int, n: Notice)
      modifies this
      ensures permitted ==> shown == old(shown)[id := n] && posts == old(posts) + 1
      ensures !permitted ==> shown == old(shown) && posts == old(posts)
    {
      if permitted {
        shown := shown[id := n];
        posts := posts + 1;
      }
    }

    /** showNotificationDirectly: the compat manager, or else the system manager. */
    method NotifyDirectly(id: int, n: Notice)
      modifies this
      ensures permitted || directDelivers ==> shown == old(shown)[id := n] && posts == old(posts) + 1
      ensures !permitted && !directDelivers ==> shown == old(shown) && posts == old(posts)
    {
      if permitted {
        Notify(id, n);
      } else {
        NotifySystem(id, n);
      }
    }

    /** A post straight to the system notification manager, with no permission check of the app's own. */
    method NotifySystem(id: int, n: Notice)
      modifies this
      ensures directDelivers ==> shown == old(shown)[id := n] && posts == old(posts) + 1
      ensures !directDelivers ==> shown == old(shown) && posts == old(posts)
    {
      if directDelivers {
        shown := shown[id := n];
        posts := posts + 1;
      }
    }

    method NotifyApproachingBudget(prefs: Prefs, percentage: int)
      requires prefs.Valid() && prefs.bound
      modifies this
      ensures permitted ==> shown == old(shown)[IdBudgetApproach :=
        Notice("Budget Alert", ApproachingText(prefs.GetBudget(), percentage, prefs.GetCurrency()))]
      ensures permitted ==> posts == old(posts) + 1
      ensures !permitted ==> shown == old(shown) && posts == old(posts)
    {
      var text := ApproachingText(prefs.GetBudget(), percentage, prefs.GetCurrency());
      Notify(IdBudgetApproach, Notice("Budget Alert", text));
    }

    method NotifyBudgetExceeded(prefs: Prefs)
      requires prefs.Valid() && prefs.bound
      modifies this
      ensures permitted ==> shown == old(shown)[IdBudgetExceeded :=
        Notice("Budget Exceeded", ExceededText(ExceededSpent(prefs.LoadTransactions()), prefs.GetBudget(), prefs.GetCurrency()))]
      ensures permitted ==> posts == old(posts) + 1
      ensures !permitted ==> shown == old(shown) && posts == old(posts)
    {
      var text := ExceededText(ExceededSpent(prefs.LoadTransactions()), prefs.GetBudget(), prefs.GetCurrency());
      Notify(IdBudgetExceeded, Notice("Budget Exceeded", text));
    }

    /** The reminder is skipped exactly when a transaction already falls on today. */
    method SendDailyTransactionReminder(prefs: Prefs, cal: Calendar, now: int)
      requires prefs.Valid() && prefs.bound
      modifies this
      ensures HasAddedTransactionToday(cal, now, prefs.LoadTransactions()) ==> shown == old(shown) && posts == old(posts)
      ensures !HasAddedTransactionToday(cal, now, prefs.LoadTransactions()) && (permitted || directDelivers) ==>
        && shown == old(shown)[IdDailyReminder := Notice("Transaction Reminder", "Don't forget to record your daily transactions")]
        && posts == old(posts) + 1
      ensures !HasAddedTransactionToday(cal, now, prefs.LoadTransactions()) && !permitted && !directDelivers ==>
        shown == old(shown) && posts == old(posts)
    {
      if HasAddedTransactionToday(cal, now, prefs.LoadTransactions()) {
        return;
      }
      NotifyDirectly(IdDailyReminder, Notice("Transaction Reminder", "Don't forget to record your daily transactions"));
    }

    /**
     * Nothing without a budget; otherwise the exceeded alert is posted on
     * every call with spent above the budget, so repeated calls post again.
     */
    method CheckBudgetStatus(prefs: Prefs, spent: real, budget: real)
      requires prefs.Valid() && prefs.bound
      modifies this
      ensures !(budget > 0.0 && spent > budget) ==> shown == old(shown) && posts == old(posts)
      ensures budget > 0.0 && spent > budget && permitted ==>
        && shown == old(shown)[IdBudgetExceeded :=
             Notice("Budget Exceeded", ExceededText(ExceededSpent(prefs.LoadTransactions()), prefs.GetBudget(), prefs.GetCurrency()))]
        && posts == old(posts) + 1
      ensures budget > 0.0 && spent > budget && !permitted ==> shown == old(shown) && posts == old(posts)
    {
      if budget <= 0.0 {
        return;
      }
      if spent > budget {
        NotifyBudgetExceeded(prefs);
      }
    }
  }
}
