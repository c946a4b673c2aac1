/**
 * The recent-history panel (frontend/src/History/History.js): the first
 * three items of `transactionHistory`, each with a sign and an amount that
 * is never shown below zero.
 */
module HistoryView {
  import opened GlobalContext
  import TransactionsView

  const NoRecent := "No recent transactions"

  /** '-' for an expense, '+' for every other type. */
  function Sign(t: Transaction): (c: char)
    ensures c == '-' <==> t.kind == "expense"
    ensures c == '+' || c == '-'
  {
    if t.kind == "expense" then '-' else '+'
  }

  /** `amount <= 0 ? 0 : amount`: the larger of the amount and zero. */
  function Shown(amount: real): (r: real)
    ensures r >= 0.0 && r >= amount
    ensures r == amount || r == 0.0
  {
    if amount <= 0.0 then 0.0 else amount
  }

  datatype Row = Row(id: string, title: string, sign: char, amount: real)

  function RowOf(t: Transaction): Row {
    Row(t.id, t.title, Sign(t), Shown(t.amount))
  }

  function Rows(s: seq<Transaction>): (rows: seq<Row>)
    ensures |rows| == |s|
    ensures forall i :: 0 <= i < |s| ==> rows[i] == RowOf(s[i])
    decreases |s|
  {
    if s == [] then [] else [RowOf(s[0])] + Rows(s[1..])
  }

  datatype Listing = Notice(text: string) | Items(rows: seq<Row>)

  /** The notice when there is nothing; otherwise one to three rows, newest first, none showing a negative amount. */
  function View(incomes: seq<Transaction>, expenses: seq<Transaction>): (v: Listing)
    ensures v.Notice? <==> |incomes| + |expenses| == 0
    ensures v.Notice? ==> v.text == NoRecent
    ensures v.Items? ==>
              && |v.rows| == |Recent(incomes, expenses)|
              && 1 <= |v.rows| <= HistorySize
              && (forall i :: 0 <= i < |v.rows| ==> v.rows[i] == RowOf(Recent(incomes, expenses)[i]))
              && (forall i :: 0 <= i < |v.rows| ==> v.rows[i].amount >= 0.0)
  {
    var history := Recent(incomes, expenses);
    if |history| == 0 then Notice(NoRecent) else Items(Rows(history))
  }

  /**
   * The history panel and the transaction list show the same sign exactly
   * for the types "income" and "expense"; any other type is '+' here and
   * '-' there.
   */
  lemma SignsAgree(t: Transaction)
    ensures Sign(t) == TransactionsView.Sign(t) <==> t.kind == "income" || t.kind == "expense"
  {
  }
}
