/**
 * The frontend's shared state (frontend/src/context/globalContext.js): the
 * lists of incomes and expenses, the error message, the guard that refuses
 * to send a request without a stored token, and the derived totals and
 * recent history.
 */
module GlobalContext {
  import opened Wrappers
  import opened Sorting

  /** A transaction as the frontend receives it; `kind` is the record's `type` field. */
  datatype Transaction = Transaction(id: string, title: string, amount: real, category: string,
                                     description: string, date: int, createdAt: int, kind: string)

  /** What a form sends to add an income or an expense. */
  datatype Payload = Payload(title: string, amount: real, date: int, category: string, description: string)

  /** The six requests the context can make. */
  datatype Op =
    | AddIncome(income: Payload)
    | GetIncomes
    | DeleteIncome(id: string)
    | AddExpense(expense: Payload)
    | GetExpenses
    | DeleteExpense(id: string)

  datatype Verb = Post | Get | Delete

  /** A request to the backend: verb, path under the API base, body and Authorization header. */
  datatype HttpRequest = HttpRequest(verb: Verb, path: string, body: Option<Payload>, authorization: string)

  /** The user kept in browser storage; "" stands for an absent token. */
  datatype StoredUser = StoredUser(token: string)

  /** How a request ends: the response data, or an error with the server's message ("" when there is none). */
  datatype NetReply = Delivered(data: seq<Transaction>) | Failed(message: string)

  predicate HasToken(stored: Option<StoredUser>) {
    stored.Some? && stored.value.token != ""
  }

  /** The error set when no token is stored. */
  function LoginMessage(op: Op): string {
    match op
    case AddIncome(_) => "Please log in to add income"
    case GetIncomes => "Please log in to view incomes"
    case DeleteIncome(_) => "Please log in to delete income"
    case AddExpense(_) => "Please log in to add expense"
    case GetExpenses => "Please log in to view expenses"
    case DeleteExpense(_) => "Please log in to delete expense"
  }

  /** The error set when a request fails without a message from the server. */
  function FailureMessage(op: Op): string {
    match op
    case AddIncome(_) => "Error adding income"
    case GetIncomes => "Error fetching incomes"
    case DeleteIncome(_) => "Error deleting income"
    case AddExpense(_) => "Error adding expense"
    case GetExpenses => "Error fetching expenses"
    case DeleteExpense(_) => "Error deleting expense"
  }

  /** The request an operation sends with `token`. */
  function RequestFor(op: Op, token: string): (request: HttpRequest)
    ensures request.authorization == "Bearer " + token
    ensures request.verb == Post <==> op.AddIncome? || op.AddExpense?
    ensures request.verb == Get <==> op == GetIncomes || op == GetExpenses
    ensures request.verb == Delete <==> op.DeleteIncome? || op.DeleteExpense?
    ensures request.body.Some? <==> request.verb == Post
    ensures op.AddIncome? ==> request.body == Some(op.income)
    ensures op.AddExpense? ==> request.body == Some(op.expense)
  {
    var auth := "Bearer " + token;
    match op
    case AddIncome(p) => HttpRequest(Post, "add-income", Some(p), auth)
    case GetIncomes => HttpRequest(Get, "get-incomes", None, auth)
    case DeleteIncome(id) => HttpRequest(Delete, "delete-income/" + id, None, auth)
    case AddExpense(p) => HttpRequest(Post, "add-expense", Some(p), auth)
    case GetExpenses => HttpRequest(Get, "get-expenses", None, auth)
    case DeleteExpense(id) => HttpRequest(Delete, "delete-expense/" + id, None, auth)
  }

  /** The list an operation reloads after it succeeds: add and delete fetch their list again. */
  function Refetch(op: Op): Option<Op> {
    match op
    case AddIncome(_) => Some(GetIncomes)
    case DeleteIncome(_) => Some(GetIncomes)
    case AddExpense(_) => Some(GetExpenses)
    case DeleteExpense(_) => Some(GetExpenses)
    case _ => None
  }

  /** The running total of a `forEach` that adds every amount, from the first item on. */
  function Sum(s: seq<Transaction>): (total: real)
    ensures (forall i :: 0 <= i < |s| ==> s[i].amount >= 0.0) ==> total >= 0.0
    ensures (forall i :: 0 <= i < |s| ==> s[i].amount == 0.0) ==> total == 0.0
    decreases |s|
  {
    if s == [] then 0.0 else Sum(s[..|s| - 1]) + s[|s| - 1].amount
  }

  /** The total of two lists is the sum of their totals. */
  lemma {:induction false} SumAppend(a: seq<Transaction>, b: seq<Transaction>)
    ensures Sum(a + b) == Sum(a) + Sum(b)
    decreases |b|
  {
    if b == [] {
      assert a + b == a;
    } else {
      assert (a + b)[..|a + b| - 1] == a + b[..|b| - 1];
      assert (a + b)[|a + b| - 1] == b[|b| - 1];
      SumAppend(a, b[..|b| - 1]);
    }
  }

  /** `totalIncome` and `totalExpenses`: the `forEach` loop that adds up every amount. */
  method Total(s: seq<Transaction>) returns (total: real)
    ensures total == Sum(s)
  {
    total := 0.0;
    var i := 0;
    while i < |s|
      invariant 0 <= i <= |s|
      invariant total == Sum(s[..i])
    {
      assert s[..i + 1][..i] == s[..i];
      total := total + s[i].amount;
      i := i + 1;
    }
    assert s[..|s|] == s;
  }

  function CreatedAt(t: Transaction): int {
    t.createdAt
  }

  /** How many items the recent history shows. */
  const HistorySize: nat := 3

  /**
   * `transactionHistory`: the incomes and expenses together, ordered by
   * `createdAt` newest first, cut to the first three. It orders a fresh
   * copy; the lists themselves keep their order.
   */
  function Recent(incomes: seq<Transaction>, expenses: seq<Transaction>): (h: seq<Transaction>)
    ensures |h| == if |incomes| + |expenses| < HistorySize then |incomes| + |expenses| else HistorySize
    ensures SortedDesc(h, CreatedAt)
    ensures multiset(h) <= multiset(incomes + expenses)
    ensures |incomes| + |expenses| <= HistorySize ==> multiset(h) == multiset(incomes + expenses)
  {
    var sorted := SortDesc(incomes + expenses, CreatedAt);
    var n := if |sorted| < HistorySize then |sorted| else HistorySize;
    assert sorted == sorted[..n] + sorted[n..];
    assert multiset(sorted) == multiset(sorted[..n]) + multiset(sorted[n..]);
    if n == |sorted| then
      assert sorted[..n] == sorted;
      sorted[..n]
    else
      sorted[..n]
  }

  /** Nothing left out of the recent history is newer than the last item shown. */
  lemma RecentAreNewest(incomes: seq<Transaction>, expenses: seq<Transaction>, x: Transaction)
    requires x in multiset(incomes + expenses) - multiset(Recent(incomes, expenses))
    ensures |Recent(incomes, expenses)| == HistorySize
    ensures x.createdAt <= Recent(incomes, expenses)[HistorySize - 1].createdAt
  {
    var sorted := SortDesc(incomes + expenses, CreatedAt);
    var h := Recent(incomes, expenses);
    var n := |h|;
    assert h == sorted[..n];
    assert sorted == h + sorted[n..];
    assert multiset(sorted) == multiset(h) + multiset(sorted[n..]);
    assert x in multiset(sorted[n..]);
    var j :| 0 <= j < |sorted[n..]| && sorted[n..][j] == x;
    assert sorted[n + j] == x;
    assert n > 0;
    assert sorted[n - 1] == h[n - 1];
  }

  /** The context's state. `error` is "" while no error is shown (null and "" both show nothing). */
  class GlobalProvider {
    var incomes: seq<Transaction>
    var expenses: seq<Transaction>
    var error: string

    constructor ()
      ensures incomes == [] && expenses == [] && error == ""
    {
      incomes, expenses, error := [], [], "";
    }

    /**
     * The guard every operation starts with: without a stored token it
     * sets the log-in error and sends nothing; with one it sends the
     * operation's request with "Bearer <token>".
     */
    method Send(op: Op, stored: Option<StoredUser>) returns (request: Option<HttpRequest>)
      modifies this`error
      ensures !HasToken(stored) ==> request.None? && error == LoginMessage(op)
      ensures HasToken(stored) ==> request == Some(RequestFor(op, stored.value.token)) && error == old(error)
    {
      if !HasToken(stored) {
        error := LoginMessage(op);
        return None;
      }
      request := Some(RequestFor(op, stored.value.token));
    }

    /**
     * What happens when a sent request ends. A delivered fetch replaces its
     * list; a delivered add or delete asks for its list again. A failure
     * sets the server's message, or the operation's fallback, as the error;
     * only the adds pass the failure on to their caller.
     */
    method Settle(op: Op, reply: NetReply) returns (refetch: Option<Op>, rethrown: bool)
      modifies this
      ensures reply.Delivered? ==>
                && refetch == Refetch(op) && !rethrown && error == old(error)
                && incomes == (if op == GetIncomes then reply.data else old(incomes))
                && expenses == (if op == GetExpenses then reply.data else old(expenses))
      ensures reply.Failed? ==>
                && refetch.None? && rethrown == (op.AddIncome? || op.AddExpense?)
                && error == (if reply.message != "" then reply.message else FailureMessage(op))
                && incomes == old(incomes) && expenses == old(expenses)
    {
      match reply
      case Delivered(data) =>
        if op == GetIncomes {
          incomes := data;
        } else if op == GetExpenses {
          expenses := data;
        }
        refetch, rethrown := Refetch(op), false;
      case Failed(message) =>
        error := if message != "" then message else FailureMessage(op);
        refetch, rethrown := None, op.AddIncome? || op.AddExpense?;
    }

    /** `totalIncome()`. */
    method TotalIncome() returns (total: real)
      ensures total == Sum(incomes)
    {
      total := Total(incomes);
    }

    /** `totalExpenses()`. */
    method TotalExpenses() returns (total: real)
      ensures total == Sum(expenses)
    {
      total := Total(expenses);
    }

    /** `totalBalance()`: income minus expenses. */
    method TotalBalance() returns (balance: real)
      ensures balance == Sum(incomes) - Sum(expenses)
    {
      var income := TotalIncome();
      var spent := TotalExpenses();
      balance := income - spent;
    }
  }
}
