# FinanceTracker core, modelled in Dafny

FinanceTracker is a personal-finance app for Android. It keeps a ledger of
income and expense transactions, a list of categories, a monthly budget and a
display currency in a key/value preference store. Its screens do these jobs:

- The dashboard shows the period's totals, the budget progress and the
  spending per category, with the recent transactions grouped by day.
- The transaction list filters the ledger by month or year.
- A form adds or edits one transaction.
- The categories screen adds, edits and deletes categories.
- The settings screen converts amounts when the currency changes, saves the
  budget and restores backups.

The app also has these parts:

- A four-digit passcode, stored as a SHA-256 hex digest, guards the main
  screen.
- Notifications warn when spending nears or passes the budget.
- A daily reminder is armed through the alarm manager.

This project models that core in Dafny. Each source file keeps its own form:

- Pure computations are functions and lemmas: filters, totals, grouping,
  currency factors, form checks, text formatting and the JSON document shape.
- Objects whose fields change are classes with `modifies` clauses. These are
  the preference stores, the screens' state, the passcode keypad, the main
  activity's lock, the notification shade and the alarm table.

The modules are:

- `Ledger` holds the records.
- `Seqs`, `Sorting`, `Grouping`, `Text` and `Totals` hold the list and string
  operations the app uses. They are Kotlin's `filter`, `any`, `find`, `map`,
  `sumOf`, `sortedWith`, `groupBy`, `trim` and `equals(ignoreCase)`.
- There is one module per core source file.

Time is an integer of milliseconds. A calendar is an abstract decomposition
of an instant into year, month, day of year, week of year and day of month.
Amounts are `real`.

The clock, randomly generated UUIDs, the SDK level, permission answers and
how platform calls end are all parameters. So are the currency formatter of
the dashboard and settings (`CurrencyFormatter`) and `String.toDouble`. The
notifications' own `"%.2f"` formatting is modelled for a locale with a '.'
decimal separator and ASCII digits.

## Model

| member | source | states |
|---|---|---|
| Text.LeadingWhitespace | app/src/main/java/com/example/financetracker/ui/CategoriesFragment.kt:94 | the count of leading whitespace characters: they are all whitespace and the next one is not |
| Text.TrailingWhitespace | app/src/main/java/com/example/financetracker/ui/CategoriesFragment.kt:94 | the same for the end of the string |
| Text.Trim | app/src/main/java/com/example/financetracker/ui/CategoriesFragment.kt:94 | `trim()` is empty exactly for a blank string; otherwise it is the slice between the whitespace runs, and its ends are not whitespace |
| Text.TrimIdempotent | app/src/main/java/com/example/financetracker/ui/AddEditTransactionActivity.kt:223-235 | trimming twice is trimming once |
| Text.LowerAscii | app/src/main/java/com/example/financetracker/ui/CategoriesFragment.kt:106-110 | an upper-case ASCII letter maps to the lower-case letter 32 code points above it; every other character is kept |
| Text.StrLeTotal | app/src/main/java/com/example/financetracker/ui/CategoriesFragment.kt:243-247 | the name order used to sort categories is total |
| Text.StrLeTransitive | app/src/main/java/com/example/financetracker/ui/CategoriesFragment.kt:243-247 | the name order is transitive |
| Text.StrLeAntisymmetric | app/src/main/java/com/example/financetracker/ui/CategoriesFragment.kt:243-247 | the name order is antisymmetric |
| Text.DigitChar | app/src/main/java/com/example/financetracker/util/ReminderPrefs.kt:64 | the digit character denotes its value |
| Text.NatToString | app/src/main/java/com/example/financetracker/util/ReminderPrefs.kt:64-66 | decimal text of a natural number: digits only, no leading zero, one character exactly below 10 |
| Text.NatToStringValue | app/src/main/java/com/example/financetracker/util/ReminderPrefs.kt:64-66 | the decimal text reads back as the number |
| Text.IntToString | app/src/main/java/com/example/financetracker/ui/HomeFragment.kt:479-498 | integer text has a minus sign exactly for negative numbers, followed by the magnitude's digits |
| Text.IntToStringInjective | app/src/main/java/com/example/financetracker/ui/HomeFragment.kt:479-498 | different integers have different texts |
| Seqs.Filter | app/src/main/java/com/example/financetracker/ui/HomeFragment.kt:240-299 | `filter` keeps exactly the elements satisfying the predicate, in order |
| Seqs.FilterAll | app/src/main/java/com/example/financetracker/ui/TransactionsFragment.kt:141-155 | a predicate that holds everywhere keeps the whole list |
| Seqs.FilterNone | app/src/main/java/com/example/financetracker/data/PrefsManager.kt:170-185 | a predicate that holds nowhere gives the empty list |
| Seqs.FilterAppend | app/src/main/java/com/example/financetracker/ui/HomeFragment.kt:240-299 | filtering distributes over concatenation |
| Seqs.FilterIdempotent | app/src/main/java/com/example/financetracker/data/PrefsManager.kt:170-185 | filtering twice by one predicate is filtering once |
| Seqs.FilterNested | app/src/main/java/com/example/financetracker/ui/HomeFragment.kt:240-299 | filtering by a weaker predicate first changes nothing |
| Seqs.FilterAgree | app/src/main/java/com/example/financetracker/ui/TransactionsFragment.kt:141-155 | predicates that agree on the list filter it alike |
| Seqs.FilterCount | app/src/main/java/com/example/financetracker/ui/HomeFragment.kt:928-943 | the filtered list holds each kept value as often as the list does, and no other value |
| Seqs.Any | app/src/main/java/com/example/financetracker/ui/CategoriesFragment.kt:106-110 | `any` holds exactly when some element satisfies the predicate |
| Seqs.IndexOfFirst | app/src/main/java/com/example/financetracker/ui/AddEditTransactionActivity.kt:267-280 | `indexOfFirst` is the first matching index, or -1 exactly when nothing matches |
| Seqs.Map | app/src/main/java/com/example/financetracker/util/CurrencyConverter.kt:38-42 | `map` applies the function at every position and keeps the length |
| Seqs.SumByAppend | app/src/main/java/com/example/financetracker/ui/HomeFragment.kt:417-425 | `sumOf` over a concatenation is the sum of the parts' sums |
| Seqs.SumByNonNegative | app/src/main/java/com/example/financetracker/ui/HomeFragment.kt:417-425 | a sum of non-negative weights is non-negative |
| Seqs.SumByPermutation | app/src/main/java/com/example/financetracker/ui/HomeFragment.kt:388-414 | reordering a list does not change its sum |
| Seqs.Take | app/src/main/java/com/example/financetracker/ui/HomeFragment.kt:228 | `take(n)` is the prefix of length min(n, size) |
| Sorting.InsertPermutes | app/src/main/java/com/example/financetracker/ui/HomeFragment.kt:390 | inserting into a sorted list adds exactly that element |
| Sorting.InsertSorted | app/src/main/java/com/example/financetracker/ui/HomeFragment.kt:390 | inserting keeps the list sorted under a total preorder |
| Sorting.SortPermutes | app/src/main/java/com/example/financetracker/ui/HomeFragment.kt:390 | `sortedByDescending` returns a permutation of its input |
| Sorting.SortSorts | app/src/main/java/com/example/financetracker/ui/HomeFragment.kt:390 | the result is sorted under a total preorder |
| Sorting.InsertStable | app/src/main/java/com/example/financetracker/ui/HomeFragment.kt:390 | inserting keeps the input order among elements of equal key |
| Sorting.SortIsStable | app/src/main/java/com/example/financetracker/ui/HomeFragment.kt:390 | the sort is stable: elements of equal key keep their input order |
| Sorting.SortKeepsSum | app/src/main/java/com/example/financetracker/ui/HomeFragment.kt:388-414 | sorting keeps every sum over the list |
| Sorting.DescendingIntIsPreorder | app/src/main/java/com/example/financetracker/ui/TransactionsFragment.kt:137 | newest-first by date is a total preorder |
| Sorting.DescendingRealIsPreorder | app/src/main/java/com/example/financetracker/ui/HomeFragment.kt:501-543 | largest-amount-first is a total preorder |
| Grouping.Keys | app/src/main/java/com/example/financetracker/ui/HomeFragment.kt:951-956 | `groupBy`'s keys are distinct, every element's key is among them, and every key comes from some element |
| Grouping.GroupsPartition | app/src/main/java/com/example/financetracker/ui/HomeFragment.kt:951-956 | the groups taken together are a permutation of the list |
| Grouping.CoveringKeysPartition | app/src/main/java/com/example/financetracker/ui/HomeFragment.kt:959 | groups taken over any distinct reordering of the keys also partition the list |
| Grouping.GroupSumsAddUp | app/src/main/java/com/example/financetracker/ui/HomeFragment.kt:501-543 | the group sums add up to the list's sum |
| Grouping.DistinctPermutation | app/src/main/java/com/example/financetracker/ui/HomeFragment.kt:959 | a permutation of distinct keys is distinct |
| Grouping.GroupTotals | app/src/main/java/com/example/financetracker/ui/HomeFragment.kt:501-543 | one (key, group sum) pair per key, in key order |
| Grouping.GroupTotalsAddUp | app/src/main/java/com/example/financetracker/ui/HomeFragment.kt:501-543 | the per-key totals add up to the sum of the grouped elements |
| Grouping.GroupTotalsKeyed | app/src/main/java/com/example/financetracker/ui/HomeFragment.kt:501-543 | the totals have distinct keys and include every element's key |
| Grouping.KeyedPermutation | app/src/main/java/com/example/financetracker/ui/HomeFragment.kt:501-543 | sorting the totals keeps their keys distinct and keeps every key |
| Totals.TotalSplits | app/src/main/java/com/example/financetracker/ui/HomeFragment.kt:416-446 | income plus expenses is the total of all amounts |
| Totals.TotalNonNegative | app/src/main/java/com/example/financetracker/ui/HomeFragment.kt:416-446 | the total of non-negative amounts is non-negative |
| KotlinNumbers.Truncate | app/src/main/java/com/example/financetracker/ui/HomeFragment.kt:479-498 | truncation toward zero lies within one unit of the value, on the side of zero |
| KotlinNumbers.ToInt | app/src/main/java/com/example/financetracker/ui/HomeFragment.kt:479-498 | `Double.toInt` truncates and saturates at the 32-bit bounds |
| KotlinNumbers.ToIntMonotone | app/src/main/java/com/example/financetracker/util/NotificationHelper.kt:29-38 | `toInt` is monotone |
| KotlinNumbers.ToIntAtLeast | app/src/main/java/com/example/financetracker/util/NotificationHelper.kt:29-38 | a value at or above an integer converts to at least that integer |
| CurrencyConverter.AvailableCurrencies | app/src/main/java/com/example/financetracker/util/CurrencyConverter.kt:15-17 | seven distinct codes, each with a rate |
| CurrencyConverter.RateOf | app/src/main/java/com/example/financetracker/util/CurrencyConverter.kt:22-33 | the table rate, or 1.0 for an unknown code; always positive |
| CurrencyConverter.ConversionFactor | app/src/main/java/com/example/financetracker/util/CurrencyConverter.kt:19-36 | positive; 1.0 for the same code; an unknown source counts as rate 1.0 |
| CurrencyConverter.FactorInverse | app/src/main/java/com/example/financetracker/util/CurrencyConverter.kt:19-36 | converting a to b and back multiplies by exactly 1 |
| CurrencyConverter.FactorCompose | app/src/main/java/com/example/financetracker/util/CurrencyConverter.kt:19-36 | converting a to b and then b to c is converting a to c |
| CurrencyConverter.Scale | app/src/main/java/com/example/financetracker/util/CurrencyConverter.kt:38-42 | `copy(amount = amount * factor)`: only the amount changes |
| CurrencyConverter.ConvertTransactions | app/src/main/java/com/example/financetracker/util/CurrencyConverter.kt:38-42 | each transaction is scaled in place, and the length is kept |
| CurrencyConverter.ConvertByOne | app/src/main/java/com/example/financetracker/util/CurrencyConverter.kt:38-42 | a factor of 1 changes nothing |
| CurrencyConverter.ConvertTwice | app/src/main/java/com/example/financetracker/util/CurrencyConverter.kt:38-42 | two conversions compose into one by the product of the factors |
| CurrencyConverter.ConvertRoundTrip | app/src/main/java/com/example/financetracker/util/CurrencyConverter.kt:19-42 | converting a ledger to another currency and back restores it |
| CurrencyConverter.ConvertScalesTotal | app/src/main/java/com/example/financetracker/util/CurrencyConverter.kt:38-42 | the converted total is the old total times the factor |
| Json.TypeNamed | app/src/main/java/com/example/financetracker/model/Transaction.kt:10 | the enum name read back is the name that was written; other strings name no type |
| Json.TransactionRoundTrip | app/src/main/java/com/example/financetracker/model/Transaction.kt:5-13 | a transaction's JSON object decodes to the same transaction |
| Json.CategoryRoundTrip | app/src/main/java/com/example/financetracker/data/Category.kt:3-7 | a category's JSON object decodes to the same category |
| Json.DecodeAll | app/src/main/java/com/example/financetracker/util/PrefsManager.kt:29-39 | an array decodes when every element does, element by element, and fails exactly when one fails |
| Json.DecodeAllRoundTrip | app/src/main/java/com/example/financetracker/util/PrefsManager.kt:23-39 | an array of encoded elements decodes to the elements |
| Json.TransactionsRoundTrip | app/src/main/java/com/example/financetracker/util/PrefsManager.kt:23-39 | a saved transaction list loads back unchanged |
| Json.CategoriesRoundTrip | app/src/main/java/com/example/financetracker/util/PrefsManager.kt:58-74 | a saved category list loads back unchanged |
| UtilPrefs.DefaultCategories | app/src/main/java/com/example/financetracker/util/PrefsManager.kt:76-87 | eight categories with distinct names; the first two are income and the rest expenses |
| UtilPrefs.TransactionsIn | app/src/main/java/com/example/financetracker/util/PrefsManager.kt:29-39 | the stored list, or the empty list when the key is absent |
| UtilPrefs.CategoriesIn | app/src/main/java/com/example/financetracker/util/PrefsManager.kt:64-74 | the stored list, or the defaults when the key is absent |
| UtilPrefs.BudgetIn | app/src/main/java/com/example/financetracker/util/PrefsManager.kt:45-47 | the stored float, or 0 when absent |
| UtilPrefs.CurrencyIn | app/src/main/java/com/example/financetracker/util/PrefsManager.kt:53-55 | the stored code, or the empty string when absent |
| UtilPrefs.FlagIn | app/src/main/java/com/example/financetracker/data/PrefsManager.kt:129-149 | the stored boolean, or false when absent |
| UtilPrefs.SaveThenLoadTransactions | app/src/main/java/com/example/financetracker/util/PrefsManager.kt:23-39 | writing a transaction list keeps the store well formed and reads back that list |
| UtilPrefs.SaveThenLoadCategories | app/src/main/java/com/example/financetracker/util/PrefsManager.kt:58-74 | the same for categories, including an empty list |
| UtilPrefs.WritesAreIndependent | app/src/main/java/com/example/financetracker/util/PrefsManager.kt:23-74 | writing one key leaves every other getter's answer unchanged |
| UtilPrefs.Prefs.constructor | app/src/main/java/com/example/financetracker/util/PrefsManager.kt:19-21 | the store starts from the persisted entries, not yet bound |
| UtilPrefs.Prefs.Init | app/src/main/java/com/example/financetracker/util/PrefsManager.kt:19-21 | `init` binds the store and writes nothing |
| UtilPrefs.Prefs.SaveTransactions | app/src/main/java/com/example/financetracker/util/PrefsManager.kt:23-27 | only the transactions key is written, and the load returns the list |
| UtilPrefs.Prefs.SaveCategories | app/src/main/java/com/example/financetracker/util/PrefsManager.kt:58-62 | only the categories key is written, and the load returns the list |
| UtilPrefs.Prefs.SetBudget | app/src/main/java/com/example/financetracker/util/PrefsManager.kt:41-43 | only the budget key is written, and the getter returns it |
| UtilPrefs.Prefs.SetCurrency | app/src/main/java/com/example/financetracker/util/PrefsManager.kt:49-51 | only the currency key is written, and the getter returns it |
| UtilPrefs.Prefs.SetFlag | app/src/main/java/com/example/financetracker/data/PrefsManager.kt:151-165 | only that flag is written, and it reads back |
| LegacyPrefs.Purged | app/src/main/java/com/example/financetracker/data/PrefsManager.kt:170-185 | the order-preserving sublist without "Test Expense" titles; it has the same length exactly when there was none |
| LegacyPrefs.PurgedLength | app/src/main/java/com/example/financetracker/data/PrefsManager.kt:176-181 | the purge shortens the list exactly when some test entry exists, which is when it saves |
| LegacyPrefs.PurgeIdempotent | app/src/main/java/com/example/financetracker/data/PrefsManager.kt:170-185 | purging twice is purging once |
| LegacyPrefs.LegacyPrefs.constructor | app/src/main/java/com/example/financetracker/data/PrefsManager.kt:26-33 | the local store starts from its persisted entries |
| LegacyPrefs.LegacyPrefs.Init | app/src/main/java/com/example/financetracker/data/PrefsManager.kt:26-33 | as written: the purge runs before the util store is bound, so on a cold start nothing is purged |
| LegacyPrefs.LegacyPrefs.InitPurgingAfterBind | app/src/main/java/com/example/financetracker/data/PrefsManager.kt:26-33 | corrected order: after init, the ledger holds no test entries |
| LegacyPrefs.LegacyPrefs.RemoveTestData | app/src/main/java/com/example/financetracker/data/PrefsManager.kt:170-185 | with a bound store, the ledger becomes the purged one; an unbound store is untouched |
| LegacyPrefs.LegacyPrefs.SaveTransactions | app/src/main/java/com/example/financetracker/data/PrefsManager.kt:62-78 | the util store and, once initialised, the local store both get the list |
| LegacyPrefs.LegacyPrefs.SaveCategories | app/src/main/java/com/example/financetracker/data/PrefsManager.kt:35-55 | the same for categories |
| LegacyPrefs.LegacyPrefs.SetBudget | app/src/main/java/com/example/financetracker/data/PrefsManager.kt:85-100 | the same for the budget |
| LegacyPrefs.LegacyPrefs.SetCurrency | app/src/main/java/com/example/financetracker/data/PrefsManager.kt:107-122 | the same for the currency |
| LegacyPrefs.LegacyPrefs.SetUseInternalStorageForBackup | app/src/main/java/com/example/financetracker/data/PrefsManager.kt:213-229 | the same for the backup-location flag |
| LegacyPrefs.LegacyPrefs.SetOnboardingCompleted | app/src/main/java/com/example/financetracker/data/PrefsManager.kt:151-165 | the same for the onboarding flag |
| LegacyPrefs.LegacyPrefs.IsOnboardingCompleted | app/src/main/java/com/example/financetracker/data/PrefsManager.kt:129-149 | true when either store says so; a local true is copied into the util store |
| LegacyPrefs.ColdStartKeepsTestData | app/src/main/java/com/example/financetracker/FinanceApplication.kt:24-41 | as written, a cold start with one test expense still holds it |
| LegacyPrefs.ColdStartPurgesTestData | app/src/main/java/com/example/financetracker/FinanceApplication.kt:24-41 | with the corrected order, a cold start leaves no test expense |
| DateUtils.IsCurrentDay | app/src/main/java/com/example/financetracker/util/DateUtils.kt:21-31 | a stamp of the current day lies in the current year, and now itself passes |
| DateUtils.IsCurrentWeek | app/src/main/java/com/example/financetracker/util/DateUtils.kt:36-46 | a stamp of the current week lies in the current calendar year, and now itself passes |
| DateUtils.IsCurrentMonth | app/src/main/java/com/example/financetracker/util/DateUtils.kt:51-61 | a stamp of the current month lies in the current year, and now itself passes |
| DateUtils.IsCurrentYear | app/src/main/java/com/example/financetracker/util/DateUtils.kt:66-74 | now itself lies in the current year |
| DateUtils.WeekUsesCalendarYear | app/src/main/java/com/example/financetracker/util/DateUtils.kt:36-46 | week 1 of consecutive calendar years is not the same week, because the calendar year is compared |
| ReminderPrefs.Hour12 | app/src/main/java/com/example/financetracker/util/ReminderPrefs.kt:57-61 | a valid hour maps to 1..12 with the same value mod 12; 0 maps to 12 and 13..23 to hour - 12 |
| ReminderPrefs.Suffix | app/src/main/java/com/example/financetracker/util/ReminderPrefs.kt:63 | "PM" exactly from 12 on, otherwise "AM" |
| ReminderPrefs.MinuteText | app/src/main/java/com/example/financetracker/util/ReminderPrefs.kt:64 | a valid minute is two digits denoting it |
| ReminderPrefs.DefaultTimeText | app/src/main/java/com/example/financetracker/util/ReminderPrefs.kt:14-15 | the defaults read "8:00 PM" |
| ReminderPrefs.FormatTimeInjective | app/src/main/java/com/example/financetracker/util/ReminderPrefs.kt:53-67 | different valid times have different texts |
| ReminderPrefs.FormatTime | app/src/main/java/com/example/financetracker/util/ReminderPrefs.kt:53-67 | the text is "<h>:<mm> <AM\|PM>": for a valid minute, everything before the colon is the 12-hour clock's hour and the two digits after it read back as the minute; the suffix is PM exactly when the hour is 12 or more |
| ReminderPrefs.ReminderPrefs.constructor | app/src/main/java/com/example/financetracker/util/ReminderPrefs.kt:14-15 | the store starts from its persisted entries |
| ReminderPrefs.ReminderPrefs.GetReminderHour | app/src/main/java/com/example/financetracker/util/ReminderPrefs.kt:39-41 | the stored hour, or 20 |
| ReminderPrefs.ReminderPrefs.GetReminderMinute | app/src/main/java/com/example/financetracker/util/ReminderPrefs.kt:46-48 | the stored minute, or 0 |
| ReminderPrefs.ReminderPrefs.SetReminderTime | app/src/main/java/com/example/financetracker/util/ReminderPrefs.kt:29-34 | both getters then return what was set, and the text formats it |
| SecurityManager.HexDigit | app/src/main/java/com/example/financetracker/util/SecurityManager.kt:90-95 | a nibble becomes one lower-case hex digit |
| SecurityManager.HexByte | app/src/main/java/com/example/financetracker/util/SecurityManager.kt:90-95 | `"%02x"`: two characters per byte |
| SecurityManager.HexDigitInjective | app/src/main/java/com/example/financetracker/util/SecurityManager.kt:90-95 | different nibbles give different digits |
| SecurityManager.HexByteInjective | app/src/main/java/com/example/financetracker/util/SecurityManager.kt:90-95 | different bytes give different pairs |
| SecurityManager.Hex | app/src/main/java/com/example/financetracker/util/SecurityManager.kt:90-95 | the digest as lower-case hex, two characters per byte |
| SecurityManager.HashPasscode | app/src/main/java/com/example/financetracker/util/SecurityManager.kt:90-95 | the hash text is two lower-case hex digits per digest byte |
| SecurityManager.HexInjective | app/src/main/java/com/example/financetracker/util/SecurityManager.kt:90-95 | different digests give different hex strings |
| SecurityManager.Verifies | app/src/main/java/com/example/financetracker/util/SecurityManager.kt:41-55 | false when no hash is stored; true only when the stored hash is the candidate's hash |
| SecurityManager.SavedPasscodeVerifies | app/src/main/java/com/example/financetracker/util/SecurityManager.kt:25-55 | after saving p, a candidate verifies exactly when it is p |
| SecurityManager.SecurityPrefs.constructor | app/src/main/java/com/example/financetracker/util/SecurityManager.kt:25-36 | the stored hash and flag are the persisted ones |
| SecurityManager.SecurityPrefs.SavePasscode | app/src/main/java/com/example/financetracker/util/SecurityManager.kt:25-36 | the hash of p is stored and the enabled flag is left alone |
| SecurityManager.SecurityPrefs.VerifyPasscode | app/src/main/java/com/example/financetracker/util/SecurityManager.kt:41-55 | nothing stored, or an empty stored hash, never verifies; a match means the stored hash is the hash of the entry |
| SecurityManager.SecurityPrefs.IsPasscodeEnabled | app/src/main/java/com/example/financetracker/util/SecurityManager.kt:60-62 | the stored flag, false by default |
| SecurityManager.SecurityPrefs.SetPasscodeEnabled | app/src/main/java/com/example/financetracker/util/SecurityManager.kt:67-73 | the flag is set and the hash kept |
| SecurityManager.SecurityPrefs.ClearPasscode | app/src/main/java/com/example/financetracker/util/SecurityManager.kt:78-85 | both keys are removed, so the passcode is disabled and no candidate verifies |
| MainScreen.MainActivity.constructor | app/src/main/java/com/example/financetracker/ui/MainActivity.kt:44-71 | the activity starts unlocked, not checking, with no verification launched |
| MainScreen.MainActivity.CheckPasscodeProtection | app/src/main/java/com/example/financetracker/ui/MainActivity.kt:91-103 | enabled: locked and checking, one verification launched; disabled: unlocked and not checking |
| MainScreen.MainActivity.OnCreate | app/src/main/java/com/example/financetracker/ui/MainActivity.kt:68-70 | a fresh start runs the protection check with its full outcome: locked and checking exactly when protection is on, with one more verification launched then and none otherwise; a restored one changes nothing |
| MainScreen.MainActivity.OnResume | app/src/main/java/com/example/financetracker/ui/MainActivity.kt:73-80 | locked and not checking: the protection check runs with its full outcome (protection on: locked, checking, one more launch; off: unlocked, not checking, no launch); otherwise nothing changes, so no second verification starts while one runs |
| MainScreen.MainActivity.OnPause | app/src/main/java/com/example/financetracker/ui/MainActivity.kt:82-89 | it locks only when no verification is in progress |
| MainScreen.MainActivity.OnActivityResult | app/src/main/java/com/example/financetracker/ui/MainActivity.kt:105-120 | the verification result clears checking: OK unlocks, anything else finishes |
| PasscodeScreen.PasscodeActivity.constructor | app/src/main/java/com/example/financetracker/ui/PasscodeActivity.kt:63-79 | an empty buffer; change mode starts by asking for the old passcode |
| PasscodeScreen.PasscodeActivity.OnNumberClick | app/src/main/java/com/example/financetracker/ui/PasscodeActivity.kt:164-175 | digits are appended up to four; the fourth runs the mode's handler on the four-digit entry, with that handler's outcome (verify: OK exactly when the store accepts it, else the incorrect message and an empty buffer; create: confirm, then save and enable, or the mismatch message; change: the old passcode first, then the new one saved with the enabled flag kept); a full buffer ignores the key |
| PasscodeScreen.PasscodeActivity.OnBackspace | app/src/main/java/com/example/financetracker/ui/PasscodeActivity.kt:121-126 | an empty buffer is left alone; otherwise only the last digit goes, the error line is hidden, and the mode, confirmation and result are untouched |
| PasscodeScreen.PasscodeActivity.OnCancel | app/src/main/java/com/example/financetracker/ui/PasscodeActivity.kt:129-131 | the screen finishes with its result code unchanged; the buffer, the error line and the mode are untouched |
| PasscodeScreen.PasscodeActivity.OnBackPressed | app/src/main/java/com/example/financetracker/ui/PasscodeActivity.kt:294-301 | ignored in verify mode, and otherwise the screen finishes |
| PasscodeScreen.PasscodeActivity.HandleCompletePasscode | app/src/main/java/com/example/financetracker/ui/PasscodeActivity.kt:192-198 | the mode picks the handler and the result is that handler's outcome (`VerifyOutcome`, `NewPasscodeOutcome` with enabling, `ChangeOutcome`); an unknown mode leaves the store, the buffer and the finished flag as they are; afterwards the screen is finished or the buffer is empty |
| PasscodeScreen.PasscodeActivity.VerifyPasscode | app/src/main/java/com/example/financetracker/ui/PasscodeActivity.kt:200-210 | the right passcode finishes with OK; a wrong one sets the incorrect-passcode message, which the reset then hides, and clears the buffer |
| PasscodeScreen.PasscodeActivity.HandleCreatePasscode | app/src/main/java/com/example/financetracker/ui/PasscodeActivity.kt:212-238 | the first entry is kept for confirmation; a matching confirmation saves and enables; a mismatch sets the mismatch message, clears the buffer and returns to the first entry, and the reset leaves the error hidden |
| PasscodeScreen.PasscodeActivity.HandleChangePasscode | app/src/main/java/com/example/financetracker/ui/PasscodeActivity.kt:240-277 | the new passcode is asked for only after the old one verifies (a wrong one sets the incorrect message and is reset with the error hidden); success saves it without touching the enabled flag |
| PasscodeScreen.PasscodeActivity.ResetPasscode | app/src/main/java/com/example/financetracker/ui/PasscodeActivity.kt:279-282 | the buffer is emptied and the display refresh hides the error line; the message text and the screen's progress stay |
| PasscodeScreen.PasscodeActivity.ShowError | app/src/main/java/com/example/financetracker/ui/PasscodeActivity.kt:284-292 | the message is set and shown; the buffer and the screen's progress stay |
| AppNotifications.Cents | app/src/main/java/com/example/financetracker/notification/NotificationHelper.kt:198-206 | `"%.2f"` rounds to the nearest cent, halves away from zero |
| AppNotifications.TwoDigits | app/src/main/java/com/example/financetracker/notification/NotificationHelper.kt:198-206 | the cents part is two digits denoting it |
| AppNotifications.Fixed2Denotes | app/src/main/java/com/example/financetracker/notification/NotificationHelper.kt:198-206 | the two-decimal text denotes the rounded cents, with a sign only when negative |
| AppNotifications.CurrencyPrefix | app/src/main/java/com/example/financetracker/notification/NotificationHelper.kt:198-206 | a symbol for the four known codes, and otherwise the code and a space |
| AppNotifications.FormatAmount | app/src/main/java/com/example/financetracker/notification/NotificationHelper.kt:198-206 | the prefix followed by the two-decimal amount |
| AppNotifications.KnownCurrenciesFormatApart | app/src/main/java/com/example/financetracker/notification/NotificationHelper.kt:198-206 | the same amount formatted in two different known currencies gives two different texts |
| AppNotifications.SpentFromPercentage | app/src/main/java/com/example/financetracker/notification/NotificationHelper.kt:39 | the spent figure lies within the budget for 0..100 %, and equals it exactly at 100 % |
| AppNotifications.ApproachingText | app/src/main/java/com/example/financetracker/notification/NotificationHelper.kt:28-41 | the text names the percentage, then the spent figure derived back from it, and ends with the budget |
| AppNotifications.ExceededText | app/src/main/java/com/example/financetracker/notification/NotificationHelper.kt:63-80 | the text opens with the overrun (spent minus budget) and ends with the budget |
| AppNotifications.ExceededSpentIsAllTime | app/src/main/java/com/example/financetracker/notification/NotificationHelper.kt:74-76 | the exceeded alert's spent figure is every amount ever recorded less the incomes, with no month singled out |
| AppNotifications.HasAddedTransactionToday | app/src/main/java/com/example/financetracker/notification/NotificationHelper.kt:177-196 | some transaction has today's date |
| AppNotifications.Shade.constructor | app/src/main/java/com/example/financetracker/notification/NotificationHelper.kt:211-220 | an empty shade with the device's permission answers |
| AppNotifications.Shade.Notify | app/src/main/java/com/example/financetracker/notification/NotificationHelper.kt:211-220 | with permission, the id shows the notice; without it nothing changes |
| AppNotifications.Shade.NotifyDirectly | app/src/main/java/com/example/financetracker/notification/NotificationHelper.kt:150-172 | it posts with permission, or when direct delivery works |
| AppNotifications.Shade.NotifySystem | app/src/main/java/com/example/financetracker/notification/NotificationHelper.kt:150-172 | the system manager posts when direct delivery works |
| AppNotifications.Shade.NotifyApproachingBudget | app/src/main/java/com/example/financetracker/notification/NotificationHelper.kt:28-61 | with permission, id 100 shows the approaching-budget text and one post is counted; without it nothing changes |
| AppNotifications.Shade.NotifyBudgetExceeded | app/src/main/java/com/example/financetracker/notification/NotificationHelper.kt:63-100 | with permission, id 101 shows the exceeded text for all expenses recorded |
| AppNotifications.Shade.SendDailyTransactionReminder | app/src/main/java/com/example/financetracker/notification/NotificationHelper.kt:105-145 | no post when something was added today; otherwise id 102 shows the reminder and one post is counted, directly when the shade delivers without permission, and nothing happens with neither |
| AppNotifications.Shade.CheckBudgetStatus | app/src/main/java/com/example/financetracker/notification/NotificationHelper.kt:222-238 | only a positive budget that is exceeded alerts: with permission id 101 then shows the exceeded notice for all recorded expenses and one post is counted; without it nothing changes |
| BudgetAlert.AlertPercentage | app/src/main/java/com/example/financetracker/util/NotificationHelper.kt:29-38 | over budget means at least 100 %, and non-negative spending a non-negative percentage |
| BudgetAlert.PercentageBounds | app/src/main/java/com/example/financetracker/util/NotificationHelper.kt:29-38 | the truncated percentage bounds hold for every budget and amount |
| BudgetAlert.CheckBudgetStatus | app/src/main/java/com/example/financetracker/util/NotificationHelper.kt:29-56 | the alert is posted only when a positive budget is exceeded, and only by a shade that delivers it; otherwise the shade is unchanged |
| BackupUtil.BackupFileName | app/src/main/java/com/example/financetracker/util/BackupUtil.kt:77-79 | "FinanceTracker_backup_<timestamp>.json" passes the backup-name filter |
| BackupUtil.BackupDocument | app/src/main/java/com/example/financetracker/util/BackupUtil.kt:58-63 | the document holds exactly transactions, categories, budget and currency |
| BackupUtil.MediaStoreDocument | app/src/main/java/com/example/financetracker/util/BackupUtil.kt:262-266 | the MediaStore document has no categories member |
| BackupUtil.ReadBackup | app/src/main/java/com/example/financetracker/util/BackupUtil.kt:161-200 | a restore succeeds exactly when the transactions decode; bad categories keep the current ones; the budget defaults to 0 and the currency to "USD" |
| BackupUtil.BackupRestoreRoundTrip | app/src/main/java/com/example/financetracker/util/BackupUtil.kt:51-95 | restoring a backup gives back exactly what was backed up |
| BackupUtil.MediaStoreRestoreKeepsCategories | app/src/main/java/com/example/financetracker/util/BackupUtil.kt:256-318 | restoring a MediaStore backup keeps the current categories |
| BackupUtil.RestoreFromFile | app/src/main/java/com/example/financetracker/util/BackupUtil.kt:161-200 | it returns true exactly when the file restores, and then writes all four values; otherwise the store is untouched |
| BackupUtil.LatestIndex | app/src/main/java/com/example/financetracker/util/BackupUtil.kt:235 | `maxBy`: the first file with the greatest modification time |
| BackupUtil.GetBackupInfo | app/src/main/java/com/example/financetracker/util/BackupUtil.kt:205-250 | the latest backup among both folders' backup files, or none |
| BackupUtil.BackupInfoText | app/src/main/java/com/example/financetracker/util/BackupUtil.kt:236-249 | no text exactly when there is no backup; otherwise it names the backup's date and ends with its storage place |
| BackupUtil.CollectBackupFiles | app/src/main/java/com/example/financetracker/util/BackupUtil.kt:216-228 | the loop gathers exactly the backup files of the folders, in order |
| Settings.ApplyNewCurrency | app/src/main/java/com/example/financetracker/ui/SettingsFragment.kt:298-336 | a new code converts the ledger and the budget by the factor, then writes transactions, currency, budget; the same code writes nothing |
| CurrencyConverter.Rebase | app/src/main/java/com/example/financetracker/ui/SettingsFragment.kt:318-320 | rebasing within the same currency leaves the amount unchanged |
| CurrencyConverter.RebaseKeepsSign | app/src/main/java/com/example/financetracker/ui/SettingsFragment.kt:318-320 | a rebased positive budget stays positive and a zero budget stays zero |
| CurrencyConverter.BudgetRoundTrip | app/src/main/java/com/example/financetracker/ui/SettingsFragment.kt:298-336 | switching currency and back restores the budget |
| Settings.FinalBudget | app/src/main/java/com/example/financetracker/ui/SettingsFragment.kt:338-381 | a budget entered in another currency is stored positive; in the current currency it is stored as entered |
| Settings.FinalBudgetConvertsBack | app/src/main/java/com/example/financetracker/ui/SettingsFragment.kt:338-381 | the stored budget converts back to the amount entered |
| Settings.SaveBudget | app/src/main/java/com/example/financetracker/ui/SettingsFragment.kt:338-381 | blank, non-numeric and non-positive inputs are refused without writing; otherwise the converted budget is written and the transactions and categories stay as they were |
| Settings.RoundToTwoDecimalsBounds | app/src/main/java/com/example/financetracker/ui/SettingsFragment.kt:384-386 | the result is a whole number of hundredths; in the Int range it is within a cent of the value on the side of zero, and beyond it toInt pins the result to the Int bound |
| Settings.RestoreChoices | app/src/main/java/com/example/financetracker/ui/SettingsFragment.kt:465-525 | no folder, no files and no backups are told apart; otherwise the backup files are offered newest first |
| Settings.SortedAreBackups | app/src/main/java/com/example/financetracker/ui/SettingsFragment.kt:488-493 | every file offered is named like a backup |
| Settings.NewBackupIsOffered | app/src/main/java/com/example/financetracker/ui/SettingsFragment.kt:465-525 | a freshly created backup file is among the choices |
| HomeTransactionList.NewestIsPreorder | app/src/main/java/com/example/financetracker/ui/HomeFragment.kt:959 | newest-day-first is a total preorder |
| HomeTransactionList.Label | app/src/main/java/com/example/financetracker/ui/HomeFragment.kt:961-966 | "Today" exactly for today, "Yesterday" exactly for the day before |
| HomeTransactionList.SignedSumIsBalance | app/src/main/java/com/example/financetracker/ui/HomeFragment.kt:969-971 | the signed day sums add up to income minus expenses |
| HomeTransactionList.AsItems | app/src/main/java/com/example/financetracker/ui/HomeFragment.kt:982-984 | one row per transaction |
| HomeTransactionList.GroupTransactionsByDate | app/src/main/java/com/example/financetracker/ui/HomeFragment.kt:945-987 | the loop builds the grouped list: one header per day, newest day first, followed by that day's transactions |
| HomeTransactionList.AppendTransactions | app/src/main/java/com/example/financetracker/ui/HomeFragment.kt:982-984 | the inner loop appends one row per transaction, in order |
| HomeTransactionList.ListAppend | app/src/main/java/com/example/financetracker/ui/HomeFragment.kt:945-987 | headers, rows and header totals of a concatenation are the concatenations |
| HomeTransactionList.ItemsOfTransactions | app/src/main/java/com/example/financetracker/ui/HomeFragment.kt:982-984 | transaction rows add no header and carry the transactions |
| HomeTransactionList.SectionsContents | app/src/main/java/com/example/financetracker/ui/HomeFragment.kt:959-985 | the sections' headers are the days, their rows the day groups, and their totals the groups' signed sums |
| HomeTransactionList.SectionContents | app/src/main/java/com/example/financetracker/ui/HomeFragment.kt:959-985 | one day's section: its header, its group, its signed total |
| HomeTransactionList.DaysFacts | app/src/main/java/com/example/financetracker/ui/HomeFragment.kt:951-959 | the sorted days are distinct, cover every transaction and are the `groupBy` keys |
| HomeTransactionList.HeadersNewestFirst | app/src/main/java/com/example/financetracker/ui/HomeFragment.kt:959 | the header days strictly decrease |
| HomeTransactionList.GroupedKeepsTransactions | app/src/main/java/com/example/financetracker/ui/HomeFragment.kt:945-987 | the grouped list's rows are a permutation of the input |
| HomeTransactionList.DayTotalsAddUp | app/src/main/java/com/example/financetracker/ui/HomeFragment.kt:945-987 | the header totals add up to income minus expenses |
| Home.FilterByTimeRange | app/src/main/java/com/example/financetracker/ui/HomeFragment.kt:240-299 | the ordered sublist in the tab's period; ALL_TIME keeps everything |
| Home.MonthWithinYear | app/src/main/java/com/example/financetracker/ui/HomeFragment.kt:240-299 | the month tab's list is the year tab's list filtered to the month |
| Home.SummaryOf | app/src/main/java/com/example/financetracker/ui/HomeFragment.kt:416-446 | income and expense totals, with balance = income - expenses |
| Home.MonthlyExpensesOfMonthView | app/src/main/java/com/example/financetracker/ui/HomeFragment.kt:400-409 | the budget's monthly figure is the month tab's expense total |
| Home.BudgetViewOf | app/src/main/java/com/example/financetracker/ui/HomeFragment.kt:448-499 | no budget view for a budget <= 0; otherwise progress is the percentage clamped to 0..100, and over budget above 100 % |
| Home.PercentText | app/src/main/java/com/example/financetracker/ui/HomeFragment.kt:448-499 | "0%" without a budget, otherwise the percentage and "%" |
| Home.ProgressValue | app/src/main/java/com/example/financetracker/ui/HomeFragment.kt:448-499 | 0 without a budget, otherwise the clamped progress |
| Home.OverBudgetMeansExceeded | app/src/main/java/com/example/financetracker/ui/HomeFragment.kt:479-498 | the over-budget display implies the month's expenses exceed the budget |
| Home.ExpensesByCategorySorted | app/src/main/java/com/example/financetracker/ui/HomeFragment.kt:501-543 | the category sums are largest first |
| Home.ExpensesByCategoryTotals | app/src/main/java/com/example/financetracker/ui/HomeFragment.kt:501-543 | each entry is its category's expense total |
| Home.ExpensesByCategoryKeys | app/src/main/java/com/example/financetracker/ui/HomeFragment.kt:501-543 | each expense category appears exactly once |
| Home.ExpensesByCategorySum | app/src/main/java/com/example/financetracker/ui/HomeFragment.kt:501-543 | the category sums add up to total expenses |
| Home.EmojiFor | app/src/main/java/com/example/financetracker/ui/HomeFragment.kt:501-543 | the emoji of the first category with that name; no emoji for an unknown category |
| Home.SpendingItems | app/src/main/java/com/example/financetracker/ui/HomeFragment.kt:501-543 | one item per category sum, with its share of the total |
| Home.CategorySummaryRows | app/src/main/java/com/example/financetracker/ui/HomeFragment.kt:501-543 | no rows exactly when the expense total is not positive; otherwise the rows are the spending items of the category sums, largest first, each with its category's emoji and its whole-percent share |
| Home.WithoutId | app/src/main/java/com/example/financetracker/ui/HomeFragment.kt:928-943 | the ordered sublist without that id; an absent id changes nothing |
| Home.HomeScreen.constructor | app/src/main/java/com/example/financetracker/ui/HomeFragment.kt:83 | the month tab is selected at first |
| Home.HomeScreen.LoadData | app/src/main/java/com/example/financetracker/ui/HomeFragment.kt:388-414 | the ledger is held newest first as a permutation of the store; a month over a positive budget posts the full budget notice (percentage, spent and budget) when the shade delivers, and nothing otherwise |
| Home.HomeScreen.SelectTab | app/src/main/java/com/example/financetracker/ui/HomeFragment.kt:182-209 | the views refresh only when the tab changes |
| Home.HomeScreen.RecentList | app/src/main/java/com/example/financetracker/ui/HomeFragment.kt:211-238 | at most ten rows: the first ten of the period's transactions, grouped by day |
| Home.HomeScreen.DeleteTransaction | app/src/main/java/com/example/financetracker/ui/HomeFragment.kt:928-943 | the store loses exactly that id and nothing else is written; the following loadData leaves the screen holding the rest newest first, none with that id, and reruns the budget check on it (the monthly alert posted exactly when the remaining month is over a positive budget and the shade delivers) |
| CategoriesScreen.AddCategory | app/src/main/java/com/example/financetracker/ui/CategoriesFragment.kt:90-121 | a blank name is refused; a name equal, ignoring case, to a category of the same type is a duplicate; otherwise the trimmed category is appended |
| CategoriesScreen.AddKeepsNamesDistinct | app/src/main/java/com/example/financetracker/ui/CategoriesFragment.kt:90-121 | adding keeps names distinct, ignoring case, within each type |
| CategoriesScreen.AddTwiceIsDuplicate | app/src/main/java/com/example/financetracker/ui/CategoriesFragment.kt:106-110 | adding the same name again, in any case, is refused |
| CategoriesScreen.Replace | app/src/main/java/com/example/financetracker/ui/CategoriesFragment.kt:178-184 | only entries equal by name and type to the original are replaced, and the length is kept |
| CategoriesScreen.EditCategory | app/src/main/java/com/example/financetracker/ui/CategoriesFragment.kt:155-196 | blank is refused; a clash with another category, the original excluded, is a duplicate; otherwise the entry is replaced |
| CategoriesScreen.EditKeepsNamesDistinct | app/src/main/java/com/example/financetracker/ui/CategoriesFragment.kt:155-196 | editing keeps names distinct, ignoring case, within each type |
| CategoriesScreen.IsUsed | app/src/main/java/com/example/financetracker/ui/CategoriesFragment.kt:201-211 | a category is in use when some transaction's category equals its name exactly, whatever the type |
| CategoriesScreen.DeleteCategory | app/src/main/java/com/example/financetracker/ui/CategoriesFragment.kt:223-236 | exactly the entries with that name and type go, and the order is kept |
| CategoriesScreen.DeleteKeepsNamesDistinct | app/src/main/java/com/example/financetracker/ui/CategoriesFragment.kt:223-236 | deleting keeps names distinct within each type |
| CategoriesScreen.FilterKeepsNoCaseClash | app/src/main/java/com/example/financetracker/ui/CategoriesFragment.kt:223-236 | any sublist of a clash-free list is clash-free |
| CategoriesScreen.DefaultCategoriesHaveNoClash | app/src/main/java/com/example/financetracker/util/PrefsManager.kt:76-87 | the defaults start clash-free |
| CategoriesScreen.ByTypeThenNameIsPreorder | app/src/main/java/com/example/financetracker/ui/CategoriesFragment.kt:243-247 | ordering by type, then name, is a total preorder |
| CategoriesScreen.DisplayOrderFacts | app/src/main/java/com/example/financetracker/ui/CategoriesFragment.kt:243-247 | the displayed list is a permutation of the categories, sorted by type and then name |
| CategoriesScreen.CategoryList.constructor | app/src/main/java/com/example/financetracker/ui/CategoriesFragment.kt:243-248 | the adapter starts empty |
| CategoriesScreen.CategoryList.UpdateItems | app/src/main/java/com/example/financetracker/ui/CategoriesFragment.kt:243-248 | the adapter shows the categories in display order |
| CategoriesScreen.OnAddCategory | app/src/main/java/com/example/financetracker/ui/CategoriesFragment.kt:90-121 | a refused add writes nothing; an accepted one saves the new list, shows it and leaves the ledger alone |
| CategoriesScreen.OnEditCategory | app/src/main/java/com/example/financetracker/ui/CategoriesFragment.kt:155-196 | the same for an edit |
| CategoriesScreen.OnDeleteCategory | app/src/main/java/com/example/financetracker/ui/CategoriesFragment.kt:199-236 | it deletes exactly when the category is unused and confirmed, and then saves and shows the shorter list |
| AddEditTransaction.CheckForm | app/src/main/java/com/example/financetracker/ui/AddEditTransactionActivity.kt:223-259 | blank title, blank amount, non-numeric, non-positive and no category are refused in that order; an accepted form holds the trimmed values |
| AddEditTransaction.SpinnerCategories | app/src/main/java/com/example/financetracker/ui/AddEditTransactionActivity.kt:142-202 | the spinner offers exactly the categories of the chosen type |
| AddEditTransaction.FindById | app/src/main/java/com/example/financetracker/ui/AddEditTransactionActivity.kt:84-104 | a transaction with that id, or none exactly when there is none |
| AddEditTransaction.Upsert | app/src/main/java/com/example/financetracker/ui/AddEditTransactionActivity.kt:265-296 | an edit replaces only the first entry with the id and keeps the length, and an unknown id changes nothing; an add appends one entry |
| AddEditTransaction.EditThenFind | app/src/main/java/com/example/financetracker/ui/AddEditTransactionActivity.kt:265-296 | after an edit, looking up the id gives the saved values |
| AddEditTransaction.AddEditScreen.constructor | app/src/main/java/com/example/financetracker/ui/AddEditTransactionActivity.kt:38-104 | editing an existing transaction takes over its date and type |
| AddEditTransaction.AddEditScreen.PickDate | app/src/main/java/com/example/financetracker/ui/AddEditTransactionActivity.kt:106-128 | the picked date becomes the transaction's date |
| AddEditTransaction.AddEditScreen.SaveTransaction | app/src/main/java/com/example/financetracker/ui/AddEditTransactionActivity.kt:221-304 | a refused form writes nothing; an accepted one is stored; an expense that leaves the month over a positive budget posts the exceeded notice when permitted, and nothing else posts |
| AddEditTransaction.AddEditScreen.Store | app/src/main/java/com/example/financetracker/ui/AddEditTransactionActivity.kt:265-337 | the upserted list is written; for an expense, a month over a positive budget posts the exceeded notice when permitted and leaves the shade alone otherwise |
| AddEditTransaction.AddEditScreen.SelectType | app/src/main/java/com/example/financetracker/ui/AddEditTransactionActivity.kt:211-213 | the chosen type becomes the form's type; the date and the finished flag stay |
| TransactionsScreen.Filtered | app/src/main/java/com/example/financetracker/ui/TransactionsFragment.kt:141-155 | the ordered sublist for the month or year; ALL_TIME keeps everything |
| TransactionsScreen.MatchesHomeTabs | app/src/main/java/com/example/financetracker/ui/TransactionsFragment.kt:141-155 | this screen and the dashboard list the same transactions for the same period |
| TransactionsScreen.EmptyText | app/src/main/java/com/example/financetracker/ui/TransactionsFragment.kt:157-165 | every empty-state text ends with the hint to add a transaction |
| TransactionsScreen.EmptyTextsDiffer | app/src/main/java/com/example/financetracker/ui/TransactionsFragment.kt:159-163 | the three periods have different empty-state texts |
| TransactionsScreen.RowIcon | app/src/main/java/com/example/financetracker/ui/TransactionsFragment.kt:238-249 | the first category with that name gives its emoji and name when the emoji is set; otherwise a money bag and the stored category |
| TransactionsScreen.AmountText | app/src/main/java/com/example/financetracker/ui/TransactionsFragment.kt:259-264 | an expense gets a minus sign and an income none |
| TransactionsScreen.DeleteRemovesOnlyThatId | app/src/main/java/com/example/financetracker/ui/TransactionsFragment.kt:192-201 | deleting from the newest-first copy removes exactly that id's records, though the order changes |
| TransactionsScreen.TransactionsList.constructor | app/src/main/java/com/example/financetracker/ui/TransactionsFragment.kt:42 | the month filter is selected at first |
| TransactionsScreen.TransactionsList.ApplyFilter | app/src/main/java/com/example/financetracker/ui/TransactionsFragment.kt:141-173 | the filtered list is computed, and the empty state shows exactly when it is empty, with the filter's text |
| TransactionsScreen.TransactionsList.LoadTransactions | app/src/main/java/com/example/financetracker/ui/TransactionsFragment.kt:136-139 | the ledger is held newest first as a permutation of the store |
| TransactionsScreen.TransactionsList.SelectTab | app/src/main/java/com/example/financetracker/ui/TransactionsFragment.kt:99-126 | the list is refiltered only when the filter changes |
| TransactionsScreen.TransactionsList.DeleteTransaction | app/src/main/java/com/example/financetracker/ui/TransactionsFragment.kt:192-201 | the held copy without that id is saved (only the transactions key is written) and the screen reloads from the store; when the held copy is newest first, as loading leaves it, so is the stored ledger |
| ReminderScheduling.AlarmManager.constructor | app/src/main/java/com/example/financetracker/notification/ReminderScheduler.kt:18-26 | the alarm table starts empty, with the device's answers |
| ReminderScheduling.AlarmManager.SetExact | app/src/main/java/com/example/financetracker/notification/ReminderScheduler.kt:51-83 | a one-shot alarm under the code, unless the call throws |
| ReminderScheduling.AlarmManager.ScheduleInexactAlarm | app/src/main/java/com/example/financetracker/notification/ReminderScheduler.kt:102-111 | a daily repeating alarm under the code, unless the call throws |
| ReminderScheduling.AlarmManager.ScheduleDailyReminder | app/src/main/java/com/example/financetracker/notification/ReminderScheduler.kt:18-97 | only code 123 changes: it is armed one minute from now, exact or repeating, with the fallbacks; only a failing fallback after a SecurityException escapes |
| ReminderScheduling.AlarmManager.CancelDailyReminder | app/src/main/java/com/example/financetracker/notification/ReminderScheduler.kt:116-133 | the entry for code 123 is removed, armed or not, and nothing else changes |
| ReminderScheduling.RescheduleReplaces | app/src/main/java/com/example/financetracker/notification/ReminderScheduler.kt:13-133 | on any alarm manager, a second arming replaces the first under code 123 and leaves other entries; the cancel then leaves the table as before without code 123 |

## Left out

- Gson text: a JSON value tree stands in for it. Its leniency is not modelled; neither is corrupt stored text that fails to parse, which the store invariant excludes.
- SharedPreferences, files, MediaStore and the ContentResolver are in-memory maps and lists of file entries. Backup creation's directory and I/O errors are left out, and so is the exception path of the legacy local write.
- Binary floating point: amounts are exact reals, and the Double to Float narrowing in `setBudget` is left out.
- `String.toDouble` is the `parse` parameter, and locale number formatting (CurrencyFormatter) is the `format` parameter.
- AppNotifications.Fixed2: `String.format("%.2f", amount)` in the notifications uses the default locale; the model renders it for a locale with a '.' separator and ASCII digits, so a comma-decimal locale's "12,50" appears as "12.50".
- Date text formatting, `getMonthName`, `BackupInfoText`'s date text and the dashboard's row binding are left out, because they are locale formatting.
- Calendar and time-zone arithmetic: a calendar is an abstract function from instant to date fields. The date picker's calendar arithmetic is left out; `PickDate` takes the millis.
- The SHA-256 digest is a parameter, assumed injective on passcodes.
- UUID generation is the `freshId` parameter, and the spinner's selection is an index parameter.
- `trim` uses Kotlin's full whitespace set. Case folding in `equals(ignoreCase)` is modelled for ASCII letters only; Unicode case folding is left out.
- String comparison (`compareTo`, used to sort category names) compares code points, while Kotlin compares UTF-16 units. The two orders differ only between supplementary characters and characters in U+E000 to U+FFFF.
- The passcode error line's three-second delayed hide is left out. Every error path resets the buffer right after showing the message, and that reset hides the line at once.
- `restoreFromFile` writes through data/PrefsManager.kt, which also copies the lists into its legacy local store. The restore model writes only the util store; the legacy copy is never read back after a restore.
- The notification permission check and the system's direct delivery are constants of `Shade`; notification channel creation and theme application are left out.
- The alarm manager's delivery and the SDK level are parameters. How each platform call ends is a constant of `AlarmManager`.
- UtilPrefs.FlagIn: util/PrefsManager.kt declares no flag accessors, yet the app calls `isOnboardingCompleted`, `setOnboardingCompleted`, `get/setUseInternalStorageForBackup` and `get/setThemeMode` on it. Their keys (`"onboarding_completed"`, `"use_internal_storage"`, `"theme_mode"`), the keys being distinct from each other and from the list keys, and the `false` default are assumed.
- UtilPrefs.Prefs.SetFlag: models those undeclared setters. It writes only its own key, and that key reads back, on the same assumption.
- Ledger.Ordinal: the declaration of the `TxType` enum (package `com.example.financetracker.data`, imported by Category.kt and the screens) is not part of this model, so its constant order INCOME, EXPENSE is assumed. That order decides where `compareBy({ it.type }, { it.name })` in the categories screen puts incomes, first or last (`CategoriesScreen.ByTypeThenName`, `DisplayOrderFacts`, `CategoryList.UpdateItems`).
- Snackbar and Toast confirmations are left out; they change no state.
- Charts, PDF export, onboarding, TestActivity, the boot and reminder receivers, HomeViewModel and the debug seeding in `addTestTransactions` are UI or plumbing and are not modelled.
- Home.HomeScreen.RecentList: states the rows' contents as a multiset of the first ten transactions, not their position within the day groups.

Where the code and its intended design differ, the model follows the code:

- Saving an empty category list and loading it gives the empty list, not the defaults.
- A currency change writes the transactions, then the currency, then the budget.
- There is no periodic backup timer.
- The reminder fires one minute after scheduling, and the chosen hour and minute are unused.
- A failing repeating alarm after a SecurityException escapes `scheduleDailyReminder`.
- The budget-exceeded notification counts all expenses ever recorded, not only this month's.
- A backup whose transactions are missing or null fails to restore, because the non-null declaration throws.

## Findings

| source | as written | input that shows it | evidently intended | confidence | as-written member | corrected member |
|---|---|---|---|---|---|---|
| app/src/main/java/com/example/financetracker/data/PrefsManager.kt:26-33 | the legacy store's `init` calls `removeTestData` before `PrefsManager.init`, so the purge sees an unbound store and is skipped on every cold start (FinanceApplication.kt:28-29 runs it in that order) | a cold start whose stored ledger is one transaction titled "Test Expense" | test data is purged at start-up | not executed | LegacyPrefs.ColdStartKeepsTestData | LegacyPrefs.ColdStartPurgesTestData |
