/**
 * The transaction list (frontend/src/Components/Transactions/Transactions.js):
 * incomes and expenses merged and ordered by date, newest first, each row
 * with its sign and the delete call its button makes.
 */
module TransactionsView {
  import opened Sorting
  import opened GlobalContext

  const NoTransactions := "No transactions found"

  function Date(t: Transaction): int {
    t.date
  }

  /** `[...incomes, ...expenses].sort((a, b) => new Date(b.date) - new Date(a.date))`. */
  function Merged(incomes: seq<Transaction>, expenses: seq<Transaction>): (m: seq<Transaction>)
    ensures |m| == |incomes| + |expenses|
    ensures multiset(m) == multiset(incomes + expenses)
    ensures SortedDesc(m, Date)
  {
    SortDesc(incomes + expenses, Date)
  }

  predicate IsIncome(t: Transaction) {
    t.kind == "income"
  }

  /** '+' for an income, '-' for every other type. */
  function Sign(t: Transaction): (c: char)
    ensures c == '+' <==> t.kind == "income"
    ensures c == '+' || c == '-'
  {
    if IsIncome(t) then '+' else '-'
  }

  /** The delete button: `deleteIncome(_id)` for an income, `deleteExpense(_id)` otherwise. */
  function DeleteAction(t: Transaction): (op: Op)
    ensures op.DeleteIncome? <==> t.kind == "income"
    ensures op.DeleteIncome? || op.DeleteExpense?
    ensures op.id == t.id
  {
    if IsIncome(t) then DeleteIncome(t.id) else DeleteExpense(t.id)
  }

  datatype Row = Row(id: string, title: string, sign: char, amount: real, onDelete: Op)

  function RowOf(t: Transaction): Row {
    Row(t.id, t.title, Sign(t), t.amount, DeleteAction(t))
  }

  /** The rows of a list, one per item, in order. */
  function Rows(s: seq<Transaction>): (rows: seq<Row>)
    ensures |rows| == |s|
    ensures forall i :: 0 <= i < |s| ==> rows[i] == RowOf(s[i])
    decreases |s|
  {
    if s == [] then [] else [RowOf(s[0])] + Rows(s[1..])
  }

  /** What the component shows: a notice, or the rows. */
  datatype Listing = Notice(text: string) | Items(rows: seq<Row>)

  /** The notice exactly when there is no transaction, otherwise one row per transaction of the merged list. */
  function View(incomes: seq<Transaction>, expenses: seq<Transaction>): (v: Listing)
    ensures v.Notice? <==> |incomes| + |expenses| == 0
    ensures v.Notice? ==> v.text == NoTransactions
    ensures v.Items? ==>
              && |v.rows| == |incomes| + |expenses|
              && forall i :: 0 <= i < |v.rows| ==> v.rows[i] == RowOf(Merged(incomes, expenses)[i])
  {
    var all := Merged(incomes, expenses);
    if |all| == 0 then Notice(NoTransactions) else Items(Rows(all))
  }

  /** A row's '+' goes with deleting an income and '-' with deleting an expense, always of the row's own id. */
  lemma SignMatchesDelete(t: Transaction)
    ensures RowOf(t).sign == '+' <==> RowOf(t).onDelete.DeleteIncome?
    ensures RowOf(t).sign == '-' <==> RowOf(t).onDelete.DeleteExpense?
    ensures RowOf(t).onDelete.id == t.id
  {
  }
}
