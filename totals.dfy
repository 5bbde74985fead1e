/**
 * Sums over a ledger the screens and notifications compute with sumOf:
 * the total of a list, of its incomes and of its expenses.
 */
module Totals {
  import opened Ledger
  import opened Seqs

  function Amount(t: Transaction): real { t.amount }

  predicate IsIncome(t: Transaction) { t.txType == INCOME }

  predicate IsExpense(t: Transaction) { t.txType == EXPENSE }

  /** sumOf { it.amount } over a list. */
  function Total(ts: seq<Transaction>): real
  {
    SumBy(Amount, ts)
  }

  /** The expense transactions of a list, in order. */
  function Expenses(ts: seq<Transaction>): seq<Transaction>
  {
    Filter(IsExpense, ts)
  }

  function Incomes(ts: seq<Transaction>): seq<Transaction>
  {
    Filter(IsIncome, ts)
  }

  /** Every transaction is an income or an expense, so the two totals make up the whole. */
  lemma {:induction false} TotalSplits(ts: seq<Transaction>)
    ensures Total(Incomes(ts)) + Total(Expenses(ts)) == Total(ts)
  {
    if ts != [] {
      TotalSplits(ts[1..]);
      assert [ts[0]] + ts[1..] == ts;
      FilterAppend(IsIncome, [ts[0]], ts[1..]);
      FilterAppend(IsExpense, [ts[0]], ts[1..]);
      SumByAppend(Amount, Filter(IsIncome, [ts[0]]), Incomes(ts[1..]));
      SumByAppend(Amount, Filter(IsExpense, [ts[0]]), Expenses(ts[1..]));
    }
  }

  /** Amounts the app accepts are positive, so no total of them is negative. */
  lemma {:induction false} TotalNonNegative(ts: seq<Transaction>)
    requires forall i :: 0 <= i < |ts| ==> ts[i].amount >= 0.0
    ensures Total(ts) >= 0.0
  {
    SumByNonNegative(Amount, ts);
  }
}
