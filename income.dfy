/** The income handlers (backend/controllers/income.js), for the user the guard admitted. */
module IncomeController {
  import opened Wrappers
  import opened Records
  import opened Sorting

  const Added := "Income Added"
  const NotFound := "Income not found"
  const Deleted := "Income Deleted"

  /**
   * `addIncome`: validation first, then one new record with the numeric
   * amount, owned by `user`. `fault` is the error `save()` throws, if any;
   * nothing is stored then.
   */
  method AddIncome(store: Collection, user: nat, body: Entry, now: int, fault: Option<string>)
    returns (reply: Reply)
    requires store.Valid()
    modifies store
    ensures store.Valid()
    ensures Validate(body).Refuse? ==>
              reply == Refused(400, Validate(body).message) && store.records == old(store.records)
    ensures Validate(body).Accept? && fault.Some? ==>
              reply == ServerError(fault.value) && store.records == old(store.records)
    ensures Validate(body).Accept? && fault.None? ==>
              && reply.Done? && reply.status == 200 && reply.message == Added
              && reply.record == Some(Record(old(store.nextId), body.title, body.amount.value, body.category,
                                             body.description, body.date, now, user))
              && store.records == old(store.records) + [reply.record.value]
              && forall i :: 0 <= i < |old(store.records)| ==> old(store.records)[i].id != reply.record.value.id
  {
    var verdict := Validate(body);
    if verdict.Refuse? {
      return Refused(400, verdict.message);
    }
    if fault.Some? {
      return ServerError(fault.value);
    }
    var income := store.Save(user, body.title, verdict.amount, body.category, body.description, body.date, now);
    reply := Done(200, Added, Some(income));
  }

  /** `getIncomes`: exactly the records `user` owns, newest `createdAt` first. The store is only read. */
  method GetIncomes(store: Collection, user: nat, fault: Option<string>) returns (reply: Reply)
    ensures fault.Some? ==> reply == ServerError(fault.value)
    ensures fault.None? ==> reply.Listing? && reply.status == 200 && Listed(reply.records, store.records, user)
    ensures fault.None? ==> forall r :: r in reply.records <==> r in store.records && r.owner == user
  {
    if fault.Some? {
      return ServerError(fault.value);
    }
    var incomes := SortDesc(Owned(store.records, user), CreatedAt);
    forall r ensures r in incomes <==> r in store.records && r.owner == user {
      assert r in incomes <==> multiset(incomes)[r] > 0;
      OwnedMember(store.records, user, r);
    }
    reply := Listing(200, incomes);
  }

  /**
   * `deleteIncome`: removes the record with `id` only when `user` owns it,
   * and then that record alone; otherwise 404 and the store is unchanged.
   */
  method DeleteIncome(store: Collection, id: nat, user: nat, fault: Option<string>) returns (reply: Reply)
    requires store.Valid()
    modifies store
    ensures store.Valid()
    ensures fault.Some? ==> reply == ServerError(fault.value) && store.records == old(store.records)
    ensures fault.None? && old(store.FindOwned(id, user)).None? ==>
              reply == Refused(404, NotFound) && store.records == old(store.records)
    ensures fault.None? && old(store.FindOwned(id, user)).Some? ==>
              && reply == Done(200, Deleted, old(store.FindOwned(id, user)))
              && store.records == Without(old(store.records), id)
              && multiset(store.records) + multiset{reply.record.value} == multiset(old(store.records))
  {
    if fault.Some? {
      return ServerError(fault.value);
    }
    ghost var before := store.records;
    var income := store.FindOneAndDelete(id, user);
    if income.None? {
      return Refused(404, NotFound);
    }
    ghost var k :| 0 <= k < |before| && before[k] == income.value;
    WithoutRemovesOne(before, k);
    reply := Done(200, Deleted, income);
  }
}
