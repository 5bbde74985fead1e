/**
 * util/NotificationHelper.kt: the monthly budget alert shown by the home
 * screen. It is posted under one fixed id, so each alert replaces the
 * previous one.
 */
module BudgetAlert {
  import opened Text
  import opened KotlinNumbers
  import opened UtilPrefs
  import opened AppNotifications

  const BudgetNotificationId := 1001

  /** The percentage of the budget used, as an Int. */
  function AlertPercentage(expenses: real, budget: real): (p: int)
    requires budget > 0.0
    ensures expenses > budget ==> p >= 100
    ensures expenses >= 0.0 ==> p >= 0
  {
    PercentageBounds(expenses, budget);
    ToInt(expenses / budget * 100.0)
  }

  lemma PercentageBounds(e: real, b: real)
    requires b > 0.0
    ensures e > b ==> ToInt(e / b * 100.0) >= 100
    ensures e >= 0.0 ==> ToInt(e / b * 100.0) >= 0
  {
    var q := e / b;
    QuotientBounds(e, b, q);
    if e >= 0.0 {
      ToIntAtLeast(q * 100.0, 0);
    }
    if e > b {
      ToIntAtLeast(q * 100.0, 100);
    }
  }

  lemma QuotientBounds(e: real, b: real, q: real)
    requires b > 0.0 && q == e / b
    ensures e > b ==> q > 1.0
    ensures e >= 0.0 ==> q >= 0.0
  {
    assert q * b == e;
  }

  /**
   * The alert text. `format` is the device's currency formatter, which
   * depends on its locale.
   */
  function AlertText(percentage: int, expenses: real, budget: real, currency: string, format: (real, string) -> string): string
  {
    "You've used " + IntToString(percentage) + "% of your monthly budget ("
      + format(expenses, currency) + " of " + format(budget, currency) + ")"
  }

  /** Nothing without a budget; an alert exactly when expenses exceed it, replacing the previous one. */
  method CheckBudgetStatus(shade: Shade, prefs: Prefs, format: (real, string) -> string, expenses: real, budget: real)
    requires prefs.Valid() && prefs.bound
    modifies shade
    ensures !(budget > 0.0 && expenses > budget) ==> shade.shown == old(shade.shown)
    ensures budget > 0.0 && expenses > budget && shade.directDelivers ==>
      shade.shown == old(shade.shown)[BudgetNotificationId := Notice("Monthly Budget Alert",
        AlertText(AlertPercentage(expenses, budget), expenses, budget, prefs.GetCurrency(), format))]
    ensures budget > 0.0 && expenses > budget && !shade.directDelivers ==> shade.shown == old(shade.shown)
  {
    if budget <= 0.0 {
      return;
    }
    if expenses > budget {
      var percentage := AlertPercentage(expenses, budget);
      var text := AlertText(percentage, expenses, budget, prefs.GetCurrency(), format);
      shade.NotifySystem(BudgetNotificationId, Notice("Monthly Budget Alert", text));
    }
  }
}
