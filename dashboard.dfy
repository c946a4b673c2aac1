/**
 * The dashboard figures (frontend/src/Components/Dashboard/Dashboard.js):
 * the totals, the balance and its colour, and the smallest and largest
 * income and expense, 0 for an empty list.
 */
module Dashboard {
  import opened GlobalContext

  /** `Math.min(...list.map(item => item.amount))` on a non-empty list. */
  function MinOf(s: seq<Transaction>): (m: real)
    requires |s| > 0
    ensures forall i :: 0 <= i < |s| ==> m <= s[i].amount
    ensures exists i :: 0 <= i < |s| && m == s[i].amount
    decreases |s|
  {
    if |s| == 1 then s[0].amount
    else
      var rest := MinOf(s[1..]);
      assert forall i :: 1 <= i < |s| ==> s[i] == s[1..][i - 1];
      if s[0].amount <= rest then s[0].amount else rest
  }

  /** `Math.max(...list.map(item => item.amount))` on a non-empty list. */
  function MaxOf(s: seq<Transaction>): (m: real)
    requires |s| > 0
    ensures forall i :: 0 <= i < |s| ==> m >= s[i].amount
    ensures exists i :: 0 <= i < |s| && m == s[i].amount
    decreases |s|
  {
    if |s| == 1 then s[0].amount
    else
      var rest := MaxOf(s[1..]);
      assert forall i :: 1 <= i < |s| ==> s[i] == s[1..][i - 1];
      if s[0].amount >= rest then s[0].amount else rest
  }

  /** The minimum shown: the smallest amount, or 0 when the list is empty. */
  function DisplayedMin(s: seq<Transaction>): (r: real)
    ensures |s| == 0 ==> r == 0.0
    ensures |s| > 0 ==> (forall i :: 0 <= i < |s| ==> r <= s[i].amount) && exists i :: 0 <= i < |s| && r == s[i].amount
  {
    if |s| > 0 then MinOf(s) else 0.0
  }

  /** The maximum shown: the largest amount, or 0 when the list is empty. */
  function DisplayedMax(s: seq<Transaction>): (r: real)
    ensures |s| == 0 ==> r == 0.0
    ensures |s| > 0 ==> (forall i :: 0 <= i < |s| ==> r >= s[i].amount) && exists i :: 0 <= i < |s| && r == s[i].amount
  {
    if |s| > 0 then MaxOf(s) else 0.0
  }

  /** The minimum shown never exceeds the maximum shown. */
  lemma MinAtMostMax(s: seq<Transaction>)
    ensures DisplayedMin(s) <= DisplayedMax(s)
  {
    if |s| > 0 {
      assert DisplayedMin(s) <= s[0].amount <= DisplayedMax(s);
    }
  }

  datatype Colour = Red | Green

  /** The colour of the balance: red for a negative balance, green otherwise. */
  function BalanceColour(balance: real): (c: Colour)
    ensures c == Red <==> balance < 0.0
  {
    if balance < 0.0 then Red else Green
  }

  datatype Figures = Figures(totalIncome: real, totalExpense: real, balance: real, balanceColour: Colour,
                             incomeMin: real, incomeMax: real, expenseMin: real, expenseMax: real)

  /** Everything the dashboard shows about the two lists. */
  function DashboardFigures(incomes: seq<Transaction>, expenses: seq<Transaction>): (d: Figures)
    ensures d.totalIncome == Sum(incomes) && d.totalExpense == Sum(expenses)
    ensures d.balance == d.totalIncome - d.totalExpense
    ensures d.balanceColour == Red <==> Sum(incomes) < Sum(expenses)
    ensures d.incomeMin == DisplayedMin(incomes) && d.incomeMax == DisplayedMax(incomes)
    ensures d.expenseMin == DisplayedMin(expenses) && d.expenseMax == DisplayedMax(expenses)
    ensures d.incomeMin <= d.incomeMax && d.expenseMin <= d.expenseMax
  {
    MinAtMostMax(incomes);
    MinAtMostMax(expenses);
    var balance := Sum(incomes) - Sum(expenses);
    Figures(Sum(incomes), Sum(expenses), balance, BalanceColour(balance),
            DisplayedMin(incomes), DisplayedMax(incomes), DisplayedMin(expenses), DisplayedMax(expenses))
  }
}
