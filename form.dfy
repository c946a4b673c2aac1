/**
 * The income form (frontend/src/Components/Form/Form.js): five inputs
 * kept in the component's state, the checks made before submitting, and
 * the submission through the shared context.
 */
module IncomeForm {
  import opened Wrappers
  import opened GlobalContext

  const FieldsRequired := "All fields are required!"
  const AmountNotPositive := "Amount must be a positive number!"

  /** The inputs wired to `handleInput`; the date has its own picker. */
  datatype Field = Title | Amount | Category | Description

  predicate AllPresent(title: string, amount: string, date: Option<int>, category: string, description: string) {
    title != "" && amount != "" && date.Some? && category != "" && description != ""
  }

  /**
   * The checks at the start of `handleSubmit`, in their order: a missing
   * field first, then an amount that is not a number or not above zero.
   * `numberOf` is the browser's string-to-number conversion, None for NaN.
   */
  function SubmitError(title: string, amount: string, date: Option<int>, category: string, description: string,
                       numberOf: string -> Option<real>): (e: Option<string>)
    ensures e == Some(FieldsRequired) <==> !AllPresent(title, amount, date, category, description)
    ensures e == Some(AmountNotPositive) <==>
              AllPresent(title, amount, date, category, description) && (numberOf(amount).None? || numberOf(amount).value <= 0.0)
    ensures e.None? <==>
              AllPresent(title, amount, date, category, description) && numberOf(amount).Some? && numberOf(amount).value > 0.0
  {
    if !AllPresent(title, amount, date, category, description) then Some(FieldsRequired)
    else if numberOf(amount).None? || numberOf(amount).value <= 0.0 then Some(AmountNotPositive)
    else None
  }

  class Form {
    var title: string
    var amount: string
    var date: Option<int>
    var category: string
    var description: string
    const ctx: GlobalProvider

    /** The empty form, dated `now`. */
    predicate Blank(now: int)
      reads this
    {
      title == "" && amount == "" && date == Some(now) && category == "" && description == ""
    }

    constructor (ctx: GlobalProvider, now: int)
      ensures Blank(now) && this.ctx == ctx
    {
      title, amount, date, category, description := "", "", Some(now), "", "";
      this.ctx := ctx;
    }

    /** `handleInput(name)`: sets that one input and clears the shared error. */
    method HandleInput(field: Field, value: string)
      modifies this, ctx`error
      ensures title == (if field == Title then value else old(title))
      ensures amount == (if field == Amount then value else old(amount))
      ensures category == (if field == Category then value else old(category))
      ensures description == (if field == Description then value else old(description))
      ensures date == old(date)
      ensures ctx.error == ""
    {
      match field {
        case Title => title := value;
        case Amount => amount := value;
        case Category => category := value;
        case Description => description := value;
      }
      ctx.error := "";
    }

    /** The date picker's `onChange`: sets the date (None when cleared) and leaves the error as it is. */
    method PickDate(d: Option<int>)
      modifies this
      ensures date == d
      ensures title == old(title) && amount == old(amount) && category == old(category) && description == old(description)
    {
      date := d;
    }

    /**
     * `handleSubmit`. A failed check sets its message and sends nothing.
     * Otherwise the income goes to the context's `addIncome`, whose reply
     * is `reply`: without a stored token nothing is sent, the log-in error
     * is set and the form is still cleared; a delivered add clears the form
     * and asks for the incomes again; a failed add sets the error and keeps
     * what was typed. Returns the requests sent, in order.
     */
    method HandleSubmit(numberOf: string -> Option<real>, stored: Option<StoredUser>, reply: NetReply, now: int)
      returns (sent: seq<HttpRequest>)
      modifies this, ctx
      ensures ctx.incomes == old(ctx.incomes) && ctx.expenses == old(ctx.expenses)
      ensures var e := SubmitError(old(title), old(amount), old(date), old(category), old(description), numberOf);
              e.Some? ==>
                && sent == [] && ctx.error == e.value
                && title == old(title) && amount == old(amount) && date == old(date)
                && category == old(category) && description == old(description)
      ensures SubmitError(old(title), old(amount), old(date), old(category), old(description), numberOf).None? ==>
                var op := AddIncome(Payload(old(title), numberOf(old(amount)).value, old(date).value,
                                            old(category), old(description)));
                && (!HasToken(stored) ==> sent == [] && ctx.error == LoginMessage(op) && Blank(now))
                && (HasToken(stored) && reply.Delivered? ==>
                      && sent == [RequestFor(op, stored.value.token), RequestFor(GetIncomes, stored.value.token)]
                      && ctx.error == old(ctx.error) && Blank(now))
                && (HasToken(stored) && reply.Failed? ==>
                      && sent == [RequestFor(op, stored.value.token)]
                      && ctx.error == (if reply.message != "" then reply.message else FailureMessage(op))
                      && title == old(title) && amount == old(amount) && date == old(date)
                      && category == old(category) && description == old(description))
    {
      var e := SubmitError(title, amount, date, category, description, numberOf);
      if e.Some? {
        ctx.error := e.value;
        return [];
      }
      var op := AddIncome(Payload(title, numberOf(amount).value, date.value, category, description));
      var request := ctx.Send(op, stored);
      sent := [];
      var rethrown := false;
      if request.Some? {
        sent := [request.value];
        var refetch;
        refetch, rethrown := ctx.Settle(op, reply);
        if refetch.Some? {
          var again := ctx.Send(refetch.value, stored);
          sent := sent + [again.value];
        }
      }
      if !rethrown {
        title, amount, date, category, description := "", "", Some(now), "", "";
      }
    }
  }
}
