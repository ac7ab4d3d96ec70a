/**
 * Properties that relate several handler calls: what a later read sees
 * after a write, which writes leave which rows alone, and which invariants
 * of the table the writes keep.
 */
module Lifecycle {
  import opened Results
  import opened Dates
  import opened Records
  import opened Schemas
  import opened Handlers

  /** A created donation is read back, under its new id, exactly as the create answered. */
  lemma CreateThenGet(s: Store, p: CreatePayload)
    requires Valid(s) && ValidateCreate(p).Ok?
    ensures CreateDonation(s, p).result.Ok?
    ensures GetDonation(CreateDonation(s, p).store, CreateDonation(s, p).result.value.id)
         == CreateDonation(s, p).result
  {
  }

  /** A create leaves every row that was already there readable as before. */
  lemma CreateKeepsOtherRows(s: Store, p: CreatePayload, k: int)
    requires Valid(s) && k in s.records
    ensures GetDonation(CreateDonation(s, p).store, k) == GetDonation(s, k)
  {
  }

  /** After a delete, the id reads as not-found. */
  lemma DeleteThenGet(s: Store, id: int)
    ensures GetDonation(DeleteDonation(s, id).store, id) == Err(NotFound(id))
  {
  }

  /** A delete changes what no other id reads. */
  lemma DeleteKeepsOtherRows(s: Store, id: int, k: int)
    requires k != id
    ensures GetDonation(DeleteDonation(s, id).store, k) == GetDonation(s, k)
  {
  }

  /** Deleting again reports not-found and changes nothing. */
  lemma DeleteTwice(s: Store, id: int)
    ensures var once := DeleteDonation(s, id);
      DeleteDonation(once.store, id) == Reply(once.store, Err(NotFound(id)))
  {
  }

  /** An update changes what no other id reads. */
  lemma UpdateKeepsOtherRows(s: Store, id: int, p: UpdatePayload, k: int)
    requires k != id
    ensures GetDonation(UpdateDonation(s, id, p).store, k) == GetDonation(s, k)
  {
  }

  /** An update that sets nothing leaves the store as it was and answers what a read would. */
  lemma UpdateEmptyIsIdentity(s: Store, id: int)
    ensures UpdateDonation(s, id, UpdatePayload(Absent, Absent, Absent, Absent)).store == s
    ensures UpdateDonation(s, id, UpdatePayload(Absent, Absent, Absent, Absent)).result
         == GetDonation(s, id)
  {
  }

  /** Sending the same update twice has the effect of sending it once. */
  lemma UpdateTwice(s: Store, id: int, p: UpdatePayload)
    ensures var once := UpdateDonation(s, id, p);
      UpdateDonation(once.store, id, p).store == once.store
  {
  }

  /** Updating only the amount changes the amount and nothing else of the row. */
  lemma UpdateOnlyAmount(s: Store, id: int, amount: real)
    requires id in s.records && amount > 0.0
    ensures var r := UpdateDonation(s, id, UpdatePayload(Absent, Absent, Given(amount), Absent));
      && r.result.Ok?
      && r.result.value == s.records[id].(amount := amount)
  {
  }

  /**
   * The as-written update with an explicit null: the schema accepts the body
   * and the request then fails in storage, not with a validation error.
   */
  lemma NullUpdateFailsInStorage()
    ensures var s := Insert(Empty, "Alice", "cash", 50.0, "2024-01-01").0;
      var p := UpdatePayload(Null, Absent, Absent, Absent);
      && ValidateUpdateAsWritten(p).Ok?
      && UpdateDonationAsWritten(s, 1, p).result == Err(NotNullViolation)
  {
  }

  /**
   * The as-written update giving a valid `YYYY-MM-DD` date: the schema
   * accepts the body and the request then fails in storage, because the
   * `Date` column refuses the text.
   */
  lemma DateUpdateFailsInStorage()
    ensures var s := Insert(Empty, "Alice", "cash", 50.0, "2024-01-01").0;
      var p := UpdatePayload(Absent, Absent, Absent, Given("2024-02-02"));
      && ValidateUpdateAsWritten(p).Ok?
      && UpdateDonationAsWritten(s, 1, p).result == Err(DateTypeError)
      && UpdateDonationAsWritten(s, 1, p).store == s
  {
  }

  /** As written, no update changes any stored date. */
  lemma AsWrittenUpdateKeepsDates(s: Store, id: int, p: UpdatePayload)
    ensures var r := UpdateDonationAsWritten(s, id, p);
      && r.store.records.Keys == s.records.Keys
      && forall k :: k in s.records ==> r.store.records[k].date == s.records[k].date
  {
  }

  /**
   * With the date read as a calendar date at the boundary, an update that
   * gives a real `YYYY-MM-DD` day stores exactly that date and nothing else.
   */
  lemma DateUpdateStoresDate(s: Store, id: int, date: string)
    requires id in s.records && IsIsoDate(date)
    ensures UpdateDonation(s, id, UpdatePayload(Absent, Absent, Absent, Given(date))).result
         == Ok(s.records[id].(date := date))
  {
  }

  /**
   * With nulls and non-dates refused at the boundary, an update never fails
   * in storage: it is rejected as invalid, reports not-found, or succeeds;
   * and a body with a null is always rejected as invalid, whatever the id.
   */
  lemma UpdateFailsOnlyBeforeStorage(s: Store, id: int, p: UpdatePayload)
    ensures UpdateDonation(s, id, p).result.Err? ==>
      UpdateDonation(s, id, p).result.error.Invalid? || UpdateDonation(s, id, p).result.error.NotFound?
    ensures HasNull(p) ==>
      UpdateDonation(s, id, p).result.Err? && UpdateDonation(s, id, p).result.error.Invalid?
  {
  }

  /** Every row holds an amount above zero, as both input shapes demand. */
  predicate AmountsPositive(s: Store) {
    forall id :: id in s.records ==> s.records[id].amount > 0.0
  }

  /** Every row holds a `YYYY-MM-DD` date, the text of a calendar date the `Date` column holds. */
  predicate DatesWellFormed(s: Store) {
    forall id :: id in s.records ==> IsIsoDate(s.records[id].date)
  }

  /** A create keeps both row invariants. */
  lemma CreatePreservesRowInvariants(s: Store, p: CreatePayload)
    requires Valid(s) && AmountsPositive(s) && DatesWellFormed(s)
    ensures AmountsPositive(CreateDonation(s, p).store)
    ensures DatesWellFormed(CreateDonation(s, p).store)
  {
  }

  /** An update keeps both row invariants: a set date is a calendar date, written in its text form. */
  lemma UpdatePreservesRowInvariants(s: Store, id: int, p: UpdatePayload)
    requires AmountsPositive(s) && DatesWellFormed(s)
    ensures AmountsPositive(UpdateDonation(s, id, p).store)
    ensures DatesWellFormed(UpdateDonation(s, id, p).store)
  {
  }

  /** A delete keeps both row invariants. */
  lemma DeletePreservesRowInvariants(s: Store, id: int)
    requires AmountsPositive(s) && DatesWellFormed(s)
    ensures AmountsPositive(DeleteDonation(s, id).store)
    ensures DatesWellFormed(DeleteDonation(s, id).store)
  {
  }

  /** While both row invariants hold, every row read back has a response. */
  lemma WellFormedRowsHaveResponses(s: Store, id: int)
    requires AmountsPositive(s) && DatesWellFormed(s)
    requires GetDonation(s, id).Ok?
    ensures ToResponse(GetDonation(s, id).value).Ok?
  {
  }
}
