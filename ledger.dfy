/**
 * The two records the app persists: a transaction (model/Transaction.kt) and
 * a category (data/Category.kt), together with the calendar view of a time
 * stamp that the date filters use.
 */
module Ledger {
  /**
   * Whether money came in or went out. The enum's declaration is not part of
   * this model; its constants are taken to be declared INCOME, then EXPENSE.
   */
  datatype TxType = INCOME | EXPENSE

  /** Position of the constant in its enum, the key a comparator on the type uses. */
  function Ordinal(t: TxType): nat
  {
    match t
    case INCOME => 0
    case EXPENSE => 1
  }

  /**
   * One money movement. `amount` is a double in the app; here it is an exact
   * real. `date` is milliseconds since the epoch.
   */
  datatype Transaction = Transaction(
    id: string,
    title: string,
    amount: real,
    category: string,
    txType: TxType,
    date: int,
    note: string)

  /** A user-visible label for transactions of one type. */
  datatype Category = Category(name: string, txType: TxType, emoji: string)

  /** The calendar fields of one instant, as java.util.Calendar reports them in the device's zone. */
  datatype DateParts = DateParts(
    year: int,
    month: int,
    dayOfMonth: int,
    dayOfYear: int,
    weekOfYear: int)

  /** The device calendar: maps a time stamp in milliseconds to its fields. */
  type Calendar = int -> DateParts
}
