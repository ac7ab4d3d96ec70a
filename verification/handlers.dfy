/**
 * The request handlers of main.py as transitions of the store. Each handler
 * is one atomic step: it validates its body first (before any storage
 * access), then reads or writes the table, and answers with a record or an
 * error. Read-only handlers return only their answer.
 */
module Handlers {
  import opened Results
  import opened Dates
  import opened Records
  import opened Schemas

  /**
   * How a request can fail. The storage failures arise only in the as-written
   * update: `DateTypeError` when text is bound to the `Date` column, which
   * accepts only date objects, and `NotNullViolation` when a NOT NULL column
   * is set to null.
   */
  datatype Error =
    | NotFound(id: int)
    | Invalid(errors: seq<FieldError>)
    | DateTypeError
    | NotNullViolation

  /** The store after a writing handler, and its answer. */
  datatype Reply<+T> = Reply(store: Store, result: Result<T, Error>)

  /** A non-empty set has a member to pick. */
  lemma NonEmptyHasMember<T>(xs: set<T>)
    requires xs != {}
    ensures exists x :: x in xs
  {
    if forall x :: x !in xs {
      assert false;
    }
  }

  /** Some enumeration of the ids, each exactly once. */
  ghost function Enumerate<T>(ids: set<T>): (r: seq<T>)
    ensures |r| == |ids|
    ensures forall i :: 0 <= i < |r| ==> r[i] in ids
    ensures forall k :: k in ids ==> k in r
    ensures forall i, j :: 0 <= i < j < |r| ==> r[i] != r[j]
    decreases ids
  {
    if ids == {} then []
    else
      NonEmptyHasMember(ids);
      var x :| x in ids;
      [x] + Enumerate(ids - {x})
  }

  /** The rows stored under the given ids, in that order. */
  ghost function RowsOf(records: map<int, Donation>, ids: seq<int>): (r: seq<Donation>)
    requires forall i :: 0 <= i < |ids| ==> ids[i] in records
    ensures |r| == |ids|
    ensures forall i :: 0 <= i < |r| ==> r[i] == records[ids[i]]
  {
    if ids == [] then [] else [records[ids[0]]] + RowsOf(records, ids[1..])
  }

  /** The rows under an enumeration of all ids: each stored row, and only those. */
  lemma RowsOfEnumeration(s: Store, ids: seq<int>)
    requires |ids| == |s.records|
    requires forall i :: 0 <= i < |ids| ==> ids[i] in s.records
    requires forall k :: k in s.records ==> k in ids
    requires forall i, j :: 0 <= i < j < |ids| ==> ids[i] != ids[j]
    ensures forall i :: 0 <= i < |ids| ==> RowsOf(s.records, ids)[i] in s.records.Values
    ensures forall id :: id in s.records ==> s.records[id] in RowsOf(s.records, ids)
    ensures Valid(s) ==> forall i, j :: 0 <= i < j < |ids| ==>
      RowsOf(s.records, ids)[i].id != RowsOf(s.records, ids)[j].id
  {
  }

  /**
   * `get_donations` (main.py:50-51): every row, each once. The query names
   * no order, and neither does the model.
   */
  ghost function ListDonations(s: Store): (r: seq<Donation>)
    ensures |r| == |s.records|
    ensures forall i :: 0 <= i < |r| ==> r[i] in s.records.Values
    ensures forall id :: id in s.records ==> s.records[id] in r
    ensures Valid(s) ==> forall i, j :: 0 <= i < j < |r| ==> r[i].id != r[j].id
  {
    var ids := Enumerate(s.records.Keys);
    RowsOfEnumeration(s, ids);
    RowsOf(s.records, ids)
  }

  /** `get_donation` (main.py:56-59): the row stored under `id`, or not-found. */
  function GetDonation(s: Store, id: int): (r: Result<Donation, Error>)
    ensures r.Ok? <==> id in s.records
    ensures r.Ok? ==> r.value == s.records[id]
    ensures Valid(s) && r.Ok? ==> r.value.id == id
    ensures r.Err? ==> r.error == NotFound(id)
  {
    if id in s.records then Ok(s.records[id]) else Err(NotFound(id))
  }

  /**
   * `create_donation` (main.py:64-75): a rejected body changes nothing; an
   * accepted one adds exactly one row, under an id no row had, holding the
   * four values of the body, and leaves every other row as it was.
   */
  function CreateDonation(s: Store, p: CreatePayload): (r: Reply<Donation>)
    requires Valid(s)
    ensures Valid(r.store)
    ensures ValidateCreate(p).Err? ==> r == Reply(s, Err(Invalid(ValidateCreate(p).error)))
    ensures ValidateCreate(p).Ok? ==>
      && r.result.Ok?
      && r.result.value.id !in s.records
      && r.store.records == s.records[r.result.value.id := r.result.value]
      && r.result.value.donorName == p.donorName.value
      && r.result.value.donationType == p.donationType.value
      && r.result.value.amount == p.amount.value
      && r.result.value.date == p.date.value
  {
    match ValidateCreate(p)
    case Err(errors) => Reply(s, Err(Invalid(errors)))
    case Ok(body) =>
      var (s', row) := Insert(s, body.donorName, body.donationType, body.amount, FormatIsoDate(body.date));
      Reply(s', Ok(row))
  }

  /**
   * The per-field merge of main.py:91-94: each field the update sets takes
   * the update's value, every other field and the id keep theirs.
   */
  function Merge(d: Donation, u: DonationUpdate): (r: Donation)
    ensures r.id == d.id
    ensures forall f :: FieldOf(r, f) == (if f in UpdateData(u) then UpdateData(u)[f] else FieldOf(d, f))
  {
    Donation(
      d.id,
      u.donorName.GetOr(d.donorName),
      u.donationType.GetOr(d.donationType),
      u.amount.GetOr(d.amount),
      if u.date.Some? then FormatIsoDate(u.date.value) else d.date)
  }

  /**
   * `update_donation` (main.py:86-100) with nulls refused and the date read
   * as a calendar date at the boundary: a rejected body or an unknown id
   * changes nothing; otherwise only the row under `id` changes, and only in
   * the fields the body sets.
   */
  function UpdateDonation(s: Store, id: int, p: UpdatePayload): (r: Reply<Donation>)
    ensures Valid(s) ==> Valid(r.store)
    ensures r.result.Err? ==> r.store == s
    ensures ValidateUpdate(p).Err? ==> r.result == Err(Invalid(ValidateUpdate(p).error))
    ensures ValidateUpdate(p).Ok? && id !in s.records ==> r.result == Err(NotFound(id))
    ensures ValidateUpdate(p).Ok? && id in s.records ==>
      && r.result == Ok(Merge(s.records[id], ValidateUpdate(p).value))
      && r.store.nextId == s.nextId
      && r.store.records.Keys == s.records.Keys
      && r.store.records[id] == r.result.value
      && forall k :: k in s.records && k != id ==> r.store.records[k] == s.records[k]
  {
    match ValidateUpdate(p)
    case Err(errors) => Reply(s, Err(Invalid(errors)))
    case Ok(u) =>
      if id !in s.records then Reply(s, Err(NotFound(id)))
      else
        var row := Merge(s.records[id], u);
        Reply(Store(s.records[id := row], s.nextId), Ok(row))
  }

  /**
   * `update_donation` exactly as written. The schema passes the date through
   * as text, and the `Date` column refuses text when the commit binds it, so
   * every update that gives a date fails in storage. The schema also lets an
   * explicit null through, `exclude_unset` keeps it, and writing it into a
   * NOT NULL column makes the commit fail. A failed commit writes nothing.
   * The date is bound before the row reaches the NOT NULL check, so a body
   * with both fails on the date. Without a null or a date it is the update
   * above, and no update ever changes a stored date.
   */
  function UpdateDonationAsWritten(s: Store, id: int, p: UpdatePayload): (r: Reply<Donation>)
    ensures r.result.Err? ==> r.store == s
    ensures ValidateUpdateAsWritten(p).Err? ==> r.result == Err(Invalid(ValidateUpdateAsWritten(p).error))
    ensures ValidateUpdateAsWritten(p).Ok? && id !in s.records ==> r.result == Err(NotFound(id))
    ensures ValidateUpdateAsWritten(p).Ok? && id in s.records && p.date.Given? ==>
      r.result == Err(DateTypeError)
    ensures ValidateUpdateAsWritten(p).Ok? && id in s.records && !p.date.Given? && HasNull(p) ==>
      r.result == Err(NotNullViolation)
    ensures r.result.Ok? ==> id in s.records && r.result.value.date == s.records[id].date
    ensures !HasNull(p) && !p.date.Given? ==> r == UpdateDonation(s, id, p)
  {
    assert !HasNull(p) && !p.date.Given? ==> UpdateErrors(p) == PositiveErrors(p.amount);
    match ValidateUpdateAsWritten(p)
    case Err(errors) => Reply(s, Err(Invalid(errors)))
    case Ok(body) =>
      if id !in s.records then Reply(s, Err(NotFound(id)))
      else if body.date.Given? then Reply(s, Err(DateTypeError))
      else if HasNull(body) then Reply(s, Err(NotNullViolation))
      else
        var row := Merge(s.records[id], AsUpdate(body));
        Reply(Store(s.records[id := row], s.nextId), Ok(row))
  }

  /**
   * `delete_donation` (main.py:107-115): removes exactly the row under `id`
   * and confirms with that id, or reports not-found and changes nothing.
   */
  function DeleteDonation(s: Store, id: int): (r: Reply<int>)
    ensures Valid(s) ==> Valid(r.store)
    ensures id in s.records ==> r.result == Ok(id)
    ensures id in s.records ==> r.store.records.Keys == s.records.Keys - {id}
    ensures id !in s.records ==> r == Reply(s, Err(NotFound(id)))
    ensures forall k :: k in r.store.records ==> k in s.records && r.store.records[k] == s.records[k]
  {
    if id in s.records then Reply(Store(s.records - {id}, s.nextId), Ok(id))
    else Reply(s, Err(NotFound(id)))
  }
}
