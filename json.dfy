/**
 * The JSON documents the app writes with Gson: the shared-preference entries
 * for the transaction and category lists, and backup files. A document is
 * kept as a tree; turning the tree into text and back is not part of the
 * model. The binding of a Transaction or Category to an object follows Gson's
 * reflective adapter: one member per field, named as the field, an enum by its
 * constant name.
 */
module Json {
  import opened Wrappers
  import opened Ledger
  import opened Seqs

  datatype Json =
    | JNull
    | JBool(b: bool)
    | JNum(x: real)
    | JStr(s: string)
    | JArr(items: seq<Json>)
    | JObj(fields: map<string, Json>)

  function Str(o: map<string, Json>, k: string): Option<string>
  {
    if k in o && o[k].JStr? then Some(o[k].s) else None
  }

  function Num(o: map<string, Json>, k: string): Option<real>
  {
    if k in o && o[k].JNum? then Some(o[k].x) else None
  }

  function TypeName(t: TxType): string
  {
    match t
    case INCOME => "INCOME"
    case EXPENSE => "EXPENSE"
  }

  /** The enum constant with the given name, as Enum.valueOf looks it up. */
  function TypeNamed(s: string): (r: Option<TxType>)
    ensures r.Some? ==> TypeName(r.value) == s
    ensures r.None? ==> s != "INCOME" && s != "EXPENSE"
  {
    if s == "INCOME" then Some(INCOME)
    else if s == "EXPENSE" then Some(EXPENSE)
    else None
  }

  function EncodeTransaction(t: Transaction): Json
  {
    JObj(map[
      "id" := JStr(t.id), "title" := JStr(t.title), "amount" := JNum(t.amount),
      "category" := JStr(t.category), "type" := JStr(TypeName(t.txType)),
      "date" := JNum(t.date as real), "note" := JStr(t.note)])
  }

  /** A transaction object; a missing or mistyped member, or a fractional date, is rejected. */
  function DecodeTransaction(j: Json): Option<Transaction>
  {
    if !j.JObj? then None
    else
      var o := j.fields;
      var id, title, amount, category := Str(o, "id"), Str(o, "title"), Num(o, "amount"), Str(o, "category");
      var typ, date, note := Str(o, "type"), Num(o, "date"), Str(o, "note");
      if id.None? || title.None? || amount.None? || category.None? || typ.None? || date.None? || note.None? then None
      else if TypeNamed(typ.value).None? || date.value.Floor as real != date.value then None
      else Some(Transaction(id.value, title.value, amount.value, category.value,
                            TypeNamed(typ.value).value, date.value.Floor, note.value))
  }

  /** Reading back what was written gives the same transaction. */
  lemma TransactionRoundTrip(t: Transaction)
    ensures DecodeTransaction(EncodeTransaction(t)) == Some(t)
  {
    assert (t.date as real).Floor == t.date;
  }

  function EncodeCategory(c: Category): Json
  {
    JObj(map["name" := JStr(c.name), "type" := JStr(TypeName(c.txType)), "emoji" := JStr(c.emoji)])
  }

  function DecodeCategory(j: Json): Option<Category>
  {
    if !j.JObj? then None
    else
      var o := j.fields;
      var name, typ, emoji := Str(o, "name"), Str(o, "type"), Str(o, "emoji");
      if name.None? || typ.None? || emoji.None? || TypeNamed(typ.value).None? then None
      else Some(Category(name.value, TypeNamed(typ.value).value, emoji.value))
  }

  lemma CategoryRoundTrip(c: Category)
    ensures DecodeCategory(EncodeCategory(c)) == Some(c)
  {
  }

  /** Every item decoded, or None when one of them does not decode. */
  function DecodeAll<T>(dec: Json -> Option<T>, js: seq<Json>): (r: Option<seq<T>>)
    ensures r.Some? ==> |r.value| == |js| && forall i :: 0 <= i < |js| ==> dec(js[i]) == Some(r.value[i])
    ensures r.None? ==> exists i :: 0 <= i < |js| && dec(js[i]).None?
  {
    if js == [] then Some([])
    else
      var head := dec(js[0]);
      var tail := DecodeAll(dec, js[1..]);
      if head.None? then None
      else if tail.None? then
        var i :| 0 <= i < |js[1..]| && dec(js[1..][i]).None?;
        assert dec(js[i + 1]).None?;
        None
      else Some([head.value] + tail.value)
  }

  /** Decoding the encodings of a list gives the list back, when each item round-trips. */
  lemma {:induction false} DecodeAllRoundTrip<T>(enc: T -> Json, dec: Json -> Option<T>, s: seq<T>)
    requires forall i :: 0 <= i < |s| ==> dec(enc(s[i])) == Some(s[i])
    ensures DecodeAll(dec, Map(enc, s)) == Some(s)
  {
    if s != [] {
      var m := Map(enc, s);
      DecodeAllRoundTrip(enc, dec, s[1..]);
      assert m[1..] == Map(enc, s[1..]);
      assert dec(m[0]) == Some(s[0]);
      assert [s[0]] + s[1..] == s;
    }
  }

  /** A list as Gson writes it: an array of its items. */
  function EncodeTransactions(ts: seq<Transaction>): Json
  {
    JArr(Map(EncodeTransaction, ts))
  }

  /** A transaction list: an array whose every item is a transaction object; anything else fails. */
  function DecodeTransactions(j: Json): Option<seq<Transaction>>
  {
    if j.JArr? then DecodeAll(DecodeTransaction, j.items) else None
  }

  lemma TransactionsRoundTrip(ts: seq<Transaction>)
    ensures DecodeTransactions(EncodeTransactions(ts)) == Some(ts)
  {
    forall i | 0 <= i < |ts| ensures DecodeTransaction(EncodeTransaction(ts[i])) == Some(ts[i]) {
      TransactionRoundTrip(ts[i]);
    }
    DecodeAllRoundTrip(EncodeTransaction, DecodeTransaction, ts);
  }

  function EncodeCategories(cs: seq<Category>): Json
  {
    JArr(Map(EncodeCategory, cs))
  }

  function DecodeCategories(j: Json): Option<seq<Category>>
  {
    if j.JArr? then DecodeAll(DecodeCategory, j.items) else None
  }

  lemma CategoriesRoundTrip(cs: seq<Category>)
    ensures DecodeCategories(EncodeCategories(cs)) == Some(cs)
  {
    forall i | 0 <= i < |cs| ensures DecodeCategory(EncodeCategory(cs[i])) == Some(cs[i]) {
      CategoryRoundTrip(cs[i]);
    }
    DecodeAllRoundTrip(EncodeCategory, DecodeCategory, cs);
  }
}
