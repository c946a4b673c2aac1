/**
 * The income and expense collections the record handlers work on
 * (backend/controllers/income.js and expense.js): records stamped with
 * their owner, the validation of an add request, and the store
 * operations `save`, `findOneAndDelete` and `findByIdAndDelete`.
 */
module Records {
  import opened Wrappers
  import opened Queries
  import opened Sorting

  const FieldsRequired := "All fields are required!"
  const AmountNotPositive := "Amount must be a positive number!"

  /** A stored income or expense; `owner` is the id of the user who added it. */
  datatype Record = Record(id: nat, title: string, amount: real, category: string, description: string,
                           date: string, createdAt: int, owner: nat)

  /**
   * The body of an add request; "" stands for an absent or empty field.
   * `amount` is the body's amount after `Number(...)`: `None` when that is NaN.
   */
  datatype Entry = Entry(title: string, amount: Option<real>, category: string, description: string, date: string)

  /** What a record handler sends back. */
  datatype Reply =
    | Refused(status: nat, message: string)
    | Done(status: nat, message: string, record: Option<Record>)
    | Listing(status: nat, records: seq<Record>)
    | ServerError(error: string)

  predicate HasAllFields(e: Entry) {
    e.title != "" && e.category != "" && e.description != "" && e.date != ""
  }

  /** The outcome of validation: the numeric amount to store, or the 400 message. */
  datatype Verdict = Accept(amount: real) | Refuse(message: string)

  /**
   * The checks of an add: the four text fields first, then the amount,
   * which must be a number greater than zero.
   */
  function Validate(e: Entry): (v: Verdict)
    ensures v == Refuse(FieldsRequired) <==> !HasAllFields(e)
    ensures v == Refuse(AmountNotPositive) <==> HasAllFields(e) && (e.amount.None? || e.amount.value <= 0.0)
    ensures v.Accept? <==> HasAllFields(e) && e.amount.Some? && e.amount.value > 0.0
    ensures v.Accept? ==> v.amount == e.amount.value
  {
    if !HasAllFields(e) then Refuse(FieldsRequired)
    else if e.amount.None? || e.amount.value <= 0.0 then Refuse(AmountNotPositive)
    else Accept(e.amount.value)
  }

  function CreatedAt(r: Record): int {
    r.createdAt
  }

  predicate OwnedBy(r: Record, owner: nat) {
    r.owner == owner
  }

  /** `find({user: owner})`: the records of one user. */
  function Owned(records: seq<Record>, owner: nat): seq<Record> {
    Filter(records, (r: Record) => OwnedBy(r, owner))
  }

  /** A record is listed for `owner` exactly when it is stored and `owner` owns it. */
  lemma OwnedMember(records: seq<Record>, owner: nat, r: Record)
    ensures r in Owned(records, owner) <==> r in records && r.owner == owner
  {
    FilterMember(records, (x: Record) => OwnedBy(x, owner), r);
  }

  /** The stored records once the one with `id` is gone. */
  function Without(records: seq<Record>, id: nat): seq<Record> {
    Filter(records, (r: Record) => r.id != id)
  }

  /** The result of `find({user: owner}).sort({createdAt: -1})`: the owner's records, newest first. */
  ghost predicate Listed(rs: seq<Record>, records: seq<Record>, owner: nat) {
    multiset(rs) == multiset(Owned(records, owner)) && SortedDesc(rs, CreatedAt)
  }

  ghost predicate DistinctIds(records: seq<Record>) {
    forall i, j :: 0 <= i < j < |records| ==> records[i].id != records[j].id
  }

  /** With distinct ids, removing a stored id takes out exactly that record and keeps every other. */
  lemma {:induction false} WithoutRemovesOne(records: seq<Record>, k: nat)
    requires DistinctIds(records)
    requires k < |records|
    ensures multiset(Without(records, records[k].id)) + multiset{records[k]} == multiset(records)
    ensures |Without(records, records[k].id)| == |records| - 1
  {
    var id := records[k].id;
    var w := Without(records, id);
    forall x ensures multiset(w)[x] + multiset{records[k]}[x] == multiset(records)[x] {
      if x.id == id {
        assert multiset(w)[x] == 0;
        if x == records[k] {
          OnlyOnce(records, k);
        } else {
          assert forall j :: 0 <= j < |records| ==> records[j] != x by {
            forall j | 0 <= j < |records| ensures records[j] != x {
              if j != k {
                assert records[j].id != records[k].id;
              }
            }
          }
          assert x !in records;
        }
      }
    }
    assert multiset(w) + multiset{records[k]} == multiset(records);
    assert |multiset(w)| + 1 == |multiset(records)|;
  }

  /** With distinct ids, every stored record occurs once. */
  lemma {:induction false} OnlyOnce(records: seq<Record>, k: nat)
    requires DistinctIds(records)
    requires k < |records|
    ensures multiset(records)[records[k]] == 1
    decreases |records|
  {
    if k == 0 {
      assert records == [records[0]] + records[1..];
      forall j | 0 <= j < |records[1..]| ensures records[1..][j] != records[0] {
        assert records[1..][j] == records[j + 1];
      }
      assert records[0] !in records[1..];
    } else {
      assert records == [records[0]] + records[1..];
      OnlyOnce(records[1..], k - 1);
      assert records[1..][k - 1] == records[k];
      assert records[0] != records[k];
    }
  }

  /** A collection of records in natural order, with increasing ids. */
  class Collection {
    var records: seq<Record>
    var nextId: nat

    ghost predicate Valid()
      reads this
    {
      (forall i :: 0 <= i < |records| ==> records[i].id < nextId) && DistinctIds(records)
    }

    constructor ()
      ensures Valid() && records == []
    {
      records := [];
      nextId := 0;
    }

    /** `findOne({_id: id, user: owner})`. */
    function FindOwned(id: nat, owner: nat): (r: Option<Record>)
      reads this
      ensures r.Some? ==> r.value in records && r.value.id == id && r.value.owner == owner
      ensures r.None? <==> forall i :: 0 <= i < |records| ==> records[i].id != id || records[i].owner != owner
    {
      First(records, (r: Record) => r.id == id && r.owner == owner)
    }

    /** `save()`: one new record with a fresh id, stamped `createdAt = now`, appended; nothing else changes. */
    method Save(owner: nat, title: string, amount: real, category: string, description: string, date: string, now: int)
      returns (rec: Record)
      requires Valid()
      modifies this
      ensures Valid()
      ensures rec == Record(old(nextId), title, amount, category, description, date, now, owner)
      ensures records == old(records) + [rec]
      ensures forall i :: 0 <= i < |old(records)| ==> old(records)[i].id != rec.id
    {
      rec := Record(nextId, title, amount, category, description, date, now, owner);
      records := records + [rec];
      nextId := nextId + 1;
    }

    /** `findOneAndDelete({_id: id, user: owner})`: removes the record only when `owner` owns it. */
    method FindOneAndDelete(id: nat, owner: nat) returns (removed: Option<Record>)
      requires Valid()
      modifies this
      ensures Valid()
      ensures removed == old(FindOwned(id, owner))
      ensures removed.None? ==> records == old(records)
      ensures removed.Some? ==> records == Without(old(records), id)
      ensures nextId == old(nextId)
    {
      removed := FindOwned(id, owner);
      if removed.Some? {
        RemoveKeepsValid(id);
        records := Without(records, id);
      }
    }

    /** `findByIdAndDelete(id)`. */
    method FindByIdAndDelete(id: nat)
      requires Valid()
      modifies this
      ensures Valid()
      ensures records == Without(old(records), id)
      ensures nextId == old(nextId)
    {
      RemoveKeepsValid(id);
      records := Without(records, id);
    }

    /** Removing records keeps the ids bounded and distinct. */
    lemma RemoveKeepsValid(id: nat)
      requires Valid()
      ensures var w := Without(records, id);
                (forall i :: 0 <= i < |w| ==> w[i].id < nextId) && DistinctIds(w)
    {
      var w := Without(records, id);
      forall i | 0 <= i < |w| ensures w[i].id < nextId {
        FilterMember(records, (r: Record) => r.id != id, w[i]);
      }
      RemoveKeepsDistinct(records, id);
    }
  }

  /** Filtering out one id keeps the remaining ids distinct. */
  lemma {:induction false} RemoveKeepsDistinct(records: seq<Record>, id: nat)
    requires DistinctIds(records)
    ensures DistinctIds(Without(records, id))
    decreases |records|
  {
    if records != [] {
      var rest := records[1..];
      assert records == [records[0]] + rest;
      RemoveKeepsDistinct(rest, id);
      var wr := Without(rest, id);
      if records[0].id != id {
        HeadIdUnique(records, id);
        ConsDistinct(records[0], wr);
        assert Without(records, id) == [records[0]] + wr;
      } else {
        assert Without(records, id) == wr;
      }
    }
  }

  /** The first record's id is not among the ids kept from the rest. */
  lemma HeadIdUnique(records: seq<Record>, id: nat)
    requires DistinctIds(records) && records != []
    ensures DistinctIds(records[1..])
    ensures forall j :: 0 <= j < |Without(records[1..], id)| ==> records[0].id != Without(records[1..], id)[j].id
  {
    var rest := records[1..];
    var wr := Without(rest, id);
    forall j | 0 <= j < |wr| ensures records[0].id != wr[j].id {
      FilterMember(rest, (r: Record) => r.id != id, wr[j]);
      var m :| 0 <= m < |rest| && rest[m] == wr[j];
      assert records[m + 1] == wr[j];
    }
  }

  /** Putting a record with a new id in front keeps ids distinct. */
  lemma ConsDistinct(r: Record, s: seq<Record>)
    requires DistinctIds(s)
    requires forall j :: 0 <= j < |s| ==> r.id != s[j].id
    ensures DistinctIds([r] + s)
  {
    var w := [r] + s;
    forall i, j | 0 <= i < j < |w| ensures w[i].id != w[j].id {
      assert w[j] == s[j - 1];
      if i > 0 {
        assert w[i] == s[i - 1];
      }
    }
  }
}
