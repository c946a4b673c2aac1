/** The expense handlers (backend/controllers/expense.js), for the user the guard admitted. */
module ExpenseController {
  import opened Wrappers
  import opened Records
  import opened Sorting

  const Added := "Expense Added"
  const NotFound := "Expense not found"
  const Deleted := "Expense Deleted"

  /**
   * `addExpense`: validation first, then one new record with the numeric
   * amount, owned by `user`. `fault` is the error `save()` throws, if any;
   * nothing is stored then.
   */
  method AddExpense(store: Collection, user: nat, body: Entry, now: int, fault: Option<string>)
    returns (reply: Reply)
    requires store.Valid()
    modifies store
    ensures store.Valid()
    ensures Validate(body).Refuse? ==>
              reply == Refused(400, Validate(body).message) && store.records == old(store.records)
    ensures Validate(body).Accept? && fault.Some? ==>
              reply == ServerError(fault.value) && store.records == old(store.records)
    ensures Validate(body).Accept? && fault.None? ==>
              && reply.Done? && reply.status == 200 && reply.message == Added
              && reply.record == Some(Record(old(store.nextId), body.title, body.amount.value, body.category,
                                             body.description, body.date, now, user))
              && store.records == old(store.records) + [reply.record.value]
              && forall i :: 0 <= i < |old(store.records)| ==> old(store.records)[i].id != reply.record.value.id
  {
    var verdict := Validate(body);
    if verdict.Refuse? {
      return Refused(400, verdict.message);
    }
    if fault.Some? {
      return ServerError(fault.value);
    }
    var expense := store.Save(user, body.title, verdict.amount, body.category, body.description, body.date, now);
    reply := Done(200, Added, Some(expense));
  }

  /** `getExpenses`: exactly the records `user` owns, newest `createdAt` first. The store is only read. */
  method GetExpenses(store: Collection, user: nat, fault: Option<string>) returns (reply: Reply)
    ensures fault.Some? ==> reply == ServerError(fault.value)
    ensures fault.None? ==> reply.Listing? && reply.status == 200 && Listed(reply.records, store.records, user)
    ensures fault.None? ==> forall r :: r in reply.records <==> r in store.records && r.owner == user
  {
    if fault.Some? {
      return ServerError(fault.value);
    }
    var expenses := SortDesc(Owned(store.records, user), CreatedAt);
    forall r ensures r in expenses <==> r in store.records && r.owner == user {
      assert r in expenses <==> multiset(expenses)[r] > 0;
      OwnedMember(store.records, user, r);
    }
    reply := Listing(200, expenses);
  }

  /**
   * `deleteExpense`: first `findOne` of the record with `id` owned by
   * `user`, 404 with the store unchanged when there is none; then
   * `findByIdAndDelete(id)`, which removes that record alone.
   */
  method DeleteExpense(store: Collection, id: nat, user: nat, fault: Option<string>) returns (reply: Reply)
    requires store.Valid()
    modifies store
    ensures store.Valid()
    ensures fault.Some? ==> reply == ServerError(fault.value) && store.records == old(store.records)
    ensures fault.None? && old(store.FindOwned(id, user)).None? ==>
              reply == Refused(404, NotFound) && store.records == old(store.records)
    ensures fault.None? && old(store.FindOwned(id, user)).Some? ==>
              && reply == Done(200, Deleted, None)
              && store.records == Without(old(store.records), id)
              && multiset(store.records) + multiset{old(store.FindOwned(id, user)).value} == multiset(old(store.records))
  {
    if fault.Some? {
      return ServerError(fault.value);
    }
    var expense := store.FindOwned(id, user);
    if expense.None? {
      return Refused(404, NotFound);
    }
    ghost var before := store.records;
    ghost var k :| 0 <= k < |before| && before[k] == expense.value;
    store.FindByIdAndDelete(id);
    WithoutRemovesOne(before, k);
    reply := Done(200, Deleted, None);
  }
}
