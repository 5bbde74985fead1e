/**
 * The currency table of util/CurrencyConverter.kt: seven supported codes, a
 * fixed rate for each relative to the US dollar, the factor that rebases an
 * amount from one code to another, and the rebasing of a whole ledger.
 */
module CurrencyConverter {
  import opened Ledger
  import opened Seqs
  import opened Totals

  /** The codes offered in the currency picker, in display order. */
  function AvailableCurrencies(): (codes: seq<string>)
    ensures |codes| == 7
    ensures forall i, j :: 0 <= i < j < |codes| ==> codes[i] != codes[j]
    ensures forall i :: 0 <= i < |codes| ==> codes[i] in Rates()
  {
    ["USD", "EUR", "GBP", "JPY", "CAD", "AUD", "LKR"]
  }

  /** Units of each currency per US dollar. */
  function Rates(): map<string, real>
  {
    map["USD" := 1.0, "EUR" := 0.85, "GBP" := 0.75, "JPY" := 110.0,
        "CAD" := 1.25, "AUD" := 1.35, "LKR" := 320.0]
  }

  /** The rate of a code, or 1.0 for a code the table does not know. */
  function RateOf(code: string): (r: real)
    ensures r > 0.0
    ensures code !in Rates() ==> r == 1.0
    ensures code in Rates() ==> r == Rates()[code]
  {
    if code in Rates() then Rates()[code] else 1.0
  }

  /**
   * What one unit of `from` is worth in `to`. Rebasing to the same code, known
   * or not, is the identity, and an unknown code counts as the dollar.
   */
  function ConversionFactor(from: string, to: string): (f: real)
    ensures f > 0.0
    ensures from == to ==> f == 1.0
    ensures from !in Rates() ==> f == RateOf(to)
    ensures from !in Rates() && to !in Rates() ==> f == 1.0
  {
    RateOf(to) / RateOf(from)
  }

  /** Converting there and back multiplies by exactly one. */
  lemma {:induction false} FactorInverse(a: string, b: string)
    ensures ConversionFactor(a, b) * ConversionFactor(b, a) == 1.0
  {
    QuotientsCompose(RateOf(a), RateOf(b), RateOf(a),
      ConversionFactor(a, b), ConversionFactor(b, a), ConversionFactor(a, a));
  }

  /** An amount rebased from `a` to `b` and back is the amount. */
  lemma ScaledThereAndBack(x: real, a: string, b: string)
    ensures x * ConversionFactor(a, b) * ConversionFactor(b, a) == x
  {
    var f, g := ConversionFactor(a, b), ConversionFactor(b, a);
    FactorInverse(a, b);
    assert x * f * g == x * (f * g);
  }

  /** Converting via an intermediate code is converting directly. */
  lemma {:induction false} FactorCompose(a: string, b: string, c: string)
    ensures ConversionFactor(a, b) * ConversionFactor(b, c) == ConversionFactor(a, c)
  {
    QuotientsCompose(RateOf(a), RateOf(b), RateOf(c),
      ConversionFactor(a, b), ConversionFactor(b, c), ConversionFactor(a, c));
  }

  lemma QuotientsCompose(x: real, y: real, z: real, p: real, q: real, r: real)
    requires x > 0.0 && y > 0.0
    requires p == y / x && q == z / y && r == z / x
    ensures p * q == r
  {
    assert p * x == y;
    assert q * y == z;
    assert r * x == z;
    assert (p * q) * x == q * (p * x);
  }

  /** A copy of `t` whose amount is multiplied by `factor`. */
  function Scale(t: Transaction, factor: real): (r: Transaction)
    ensures r.amount == t.amount * factor
    ensures r.(amount := t.amount) == t
  {
    t.(amount := t.amount * factor)
  }

  /**
   * Every transaction with its amount multiplied by `factor`; count, order
   * and every other field are kept.
   */
  function ConvertTransactions(ts: seq<Transaction>, factor: real): (r: seq<Transaction>)
    ensures |r| == |ts|
    ensures forall i :: 0 <= i < |ts| ==>
      r[i].amount == ts[i].amount * factor && r[i].(amount := ts[i].amount) == ts[i]
  {
    Map((t: Transaction) => Scale(t, factor), ts)
  }

  /** Converting by 1 gives the ledger back. */
  lemma {:induction false} ConvertByOne(ts: seq<Transaction>)
    ensures ConvertTransactions(ts, 1.0) == ts
  {
    var r := ConvertTransactions(ts, 1.0);
    assert forall i :: 0 <= i < |ts| ==> r[i] == ts[i];
  }

  /** Scaling twice is scaling once by the product of the factors. */
  lemma ScaleTwice(t: Transaction, f: real, g: real)
    ensures Scale(Scale(t, f), g) == Scale(t, f * g)
  {
    assert t.amount * f * g == t.amount * (f * g);
  }

  /** Converting twice is converting once by the product of the factors. */
  lemma {:induction false} ConvertTwice(ts: seq<Transaction>, f: real, g: real)
    ensures ConvertTransactions(ConvertTransactions(ts, f), g) == ConvertTransactions(ts, f * g)
  {
    var r1 := ConvertTransactions(ConvertTransactions(ts, f), g);
    var r2 := ConvertTransactions(ts, f * g);
    forall i | 0 <= i < |ts| ensures r1[i] == r2[i] {
      ScaleTwice(ts[i], f, g);
    }
  }

  /** Rebasing from `a` to `b` and back restores every amount. */
  lemma {:induction false} ConvertRoundTrip(ts: seq<Transaction>, a: string, b: string)
    ensures ConvertTransactions(ConvertTransactions(ts, ConversionFactor(a, b)), ConversionFactor(b, a)) == ts
  {
    ConvertTwice(ts, ConversionFactor(a, b), ConversionFactor(b, a));
    FactorInverse(a, b);
    ConvertByOne(ts);
  }

  /** The total of the rebased ledger is the old total times the factor. */
  lemma {:induction false} ConvertScalesTotal(ts: seq<Transaction>, factor: real)
    ensures Total(ConvertTransactions(ts, factor)) == Total(ts) * factor
  {
    if ts != [] {
      ConvertScalesTotal(ts[1..], factor);
      assert ConvertTransactions(ts, factor)[1..] == ConvertTransactions(ts[1..], factor);
    }
  }

  /** An amount in `from` expressed in `to`. */
  function Rebase(amount: real, from: string, to: string): (r: real)
    ensures from == to ==> r == amount
  {
    amount * ConversionFactor(from, to)
  }

  /** Rebasing keeps the sign of an amount that is not negative. */
  lemma RebaseKeepsSign(amount: real, from: string, to: string)
    ensures amount > 0.0 ==> Rebase(amount, from, to) > 0.0
    ensures amount == 0.0 ==> Rebase(amount, from, to) == 0.0
  {
  }

  /** Switching to another currency and back restores the budget. */
  lemma {:induction false} BudgetRoundTrip(budget: real, a: string, b: string)
    ensures Rebase(Rebase(budget, a, b), b, a) == budget
  {
    var once := Rebase(budget, a, b);
    RebaseScales(budget, a, b);
    RebaseScales(once, b, a);
    ScaledThereAndBack(budget, a, b);
  }

  lemma RebaseScales(amount: real, from: string, to: string)
    ensures Rebase(amount, from, to) == amount * ConversionFactor(from, to)
  {
  }
}
