/**
 * The payload shapes at the network boundary (schemas/api_schemas.py) and
 * their validation. A JSON member is either absent, an explicit `null`, or
 * a value; validation reports one error per offending field, in the order
 * the fields are declared.
 */
module Schemas {
  import opened Results
  import opened Dates
  import opened Records

  /** The state of one member of a JSON object. */
  datatype Slot<+T> = Absent | Null | Given(value: T)

  datatype Problem = Missing | NullGiven | NotGreaterThanZero | NotADate

  datatype FieldError = FieldError(field: FieldName, problem: Problem)

  /** A create request body as received. */
  datatype CreatePayload = CreatePayload(
    donorName: Slot<string>,
    donationType: Slot<string>,
    amount: Slot<real>,
    date: Slot<string>)

  /** A create request body that passed validation (`DonationCreate`). */
  datatype DonationCreate = DonationCreate(
    donorName: string,
    donationType: string,
    amount: real,
    date: Date)

  /** An update request body as received: every member may be left out. */
  datatype UpdatePayload = UpdatePayload(
    donorName: Slot<string>,
    donationType: Slot<string>,
    amount: Slot<real>,
    date: Slot<string>)

  /**
   * An update request body that passed validation: `None` means "leave as
   * is". A date to set is a calendar date, as the `Date` column needs.
   */
  datatype DonationUpdate = DonationUpdate(
    donorName: Option<string>,
    donationType: Option<string>,
    amount: Option<real>,
    date: Option<CalendarDate>)

  /** What a response carries (`DonationResponse`): the base fields plus the id. */
  datatype DonationResponse = DonationResponse(
    id: int,
    donorName: string,
    donationType: string,
    amount: real,
    date: Date)

  /** Errors about presence alone: a required member left out, or an explicit null. */
  function PresenceErrors<T>(f: FieldName, slot: Slot<T>, required: bool): seq<FieldError> {
    match slot
    case Absent => if required then [FieldError(f, Missing)] else []
    case Null => [FieldError(f, NullGiven)]
    case Given(_) => []
  }

  /** The `gt=0` constraint on an amount, checked only when one is given. */
  function PositiveErrors(slot: Slot<real>): seq<FieldError> {
    if slot.Given? && slot.value <= 0.0 then [FieldError(AmountField, NotGreaterThanZero)] else []
  }

  /** The calendar-date constraint on a date, checked only when one is given. */
  function DateErrors(slot: Slot<string>): seq<FieldError> {
    if slot.Given? && !IsIsoDate(slot.value) then [FieldError(DateField, NotADate)] else []
  }

  predicate AllGiven(p: CreatePayload) {
    p.donorName.Given? && p.donationType.Given? && p.amount.Given? && p.date.Given?
  }

  function CreateErrors(p: CreatePayload): seq<FieldError> {
    PresenceErrors(DonorNameField, p.donorName, true)
    + PresenceErrors(DonationTypeField, p.donationType, true)
    + PresenceErrors(AmountField, p.amount, true) + PositiveErrors(p.amount)
    + PresenceErrors(DateField, p.date, true) + DateErrors(p.date)
  }

  /**
   * `DonationCreate` validation: all four members are required, the amount
   * must exceed zero and the date must be a real `YYYY-MM-DD` day. An
   * accepted body keeps its values; a rejected one names every bad field.
   */
  function ValidateCreate(p: CreatePayload): (r: Result<DonationCreate, seq<FieldError>>)
    ensures r.Ok? <==> AllGiven(p) && p.amount.value > 0.0 && IsIsoDate(p.date.value)
    ensures r.Ok? ==>
      && r.value.donorName == p.donorName.value
      && r.value.donationType == p.donationType.value
      && r.value.amount == p.amount.value
      && ValidDate(r.value.date)
      && FormatIsoDate(r.value.date) == p.date.value
    ensures r.Err? ==> |r.error| > 0
    ensures r.Err? && !p.donorName.Given? ==> r.error[0].field == DonorNameField
    ensures r.Err? && p.donorName.Absent? ==> FieldError(DonorNameField, Missing) in r.error
    ensures r.Err? && p.donationType.Absent? ==> FieldError(DonationTypeField, Missing) in r.error
    ensures r.Err? && p.amount.Absent? ==> FieldError(AmountField, Missing) in r.error
    ensures r.Err? && p.date.Absent? ==> FieldError(DateField, Missing) in r.error
    ensures r.Err? && p.donorName.Null? ==> FieldError(DonorNameField, NullGiven) in r.error
    ensures r.Err? && p.donationType.Null? ==> FieldError(DonationTypeField, NullGiven) in r.error
    ensures r.Err? && p.amount.Null? ==> FieldError(AmountField, NullGiven) in r.error
    ensures r.Err? && p.date.Null? ==> FieldError(DateField, NullGiven) in r.error
    ensures r.Err? && p.amount.Given? && p.amount.value <= 0.0 ==>
      FieldError(AmountField, NotGreaterThanZero) in r.error
    ensures r.Err? && p.date.Given? && !IsIsoDate(p.date.value) ==>
      FieldError(DateField, NotADate) in r.error
  {
    var errors := CreateErrors(p);
    if errors == [] then
      var date := ParseIsoDate(p.date.value).value;
      FormatParse(p.date.value);
      Ok(DonationCreate(p.donorName.value, p.donationType.value, p.amount.value, date))
    else
      Err(errors)
  }

  predicate HasNull(p: UpdatePayload) {
    p.donorName.Null? || p.donationType.Null? || p.amount.Null? || p.date.Null?
  }

  /** Reads a member that is known not to be null: absent becomes `None`. */
  function Present<T>(slot: Slot<T>): (r: Option<T>)
    requires !slot.Null?
    ensures r.Some? <==> slot.Given?
    ensures r.Some? ==> r.value == slot.value
  {
    if slot.Given? then Some(slot.value) else None
  }

  /** The per-field "set or leave" reading of an update body with no null and no date. */
  function AsUpdate(p: UpdatePayload): (u: DonationUpdate)
    requires !HasNull(p) && !p.date.Given?
    ensures u.date == None
  {
    DonationUpdate(Present(p.donorName), Present(p.donationType), Present(p.amount), None)
  }

  /**
   * `DonationUpdate` validation as the schema is written: every member is
   * `Optional`, so absent and `null` both pass, and only a given amount is
   * held to `gt=0`. The date is a plain string with no calendar check.
   */
  function ValidateUpdateAsWritten(p: UpdatePayload): (r: Result<UpdatePayload, seq<FieldError>>)
    ensures r.Ok? <==> (p.amount.Given? ==> p.amount.value > 0.0)
    ensures r.Ok? ==> r.value == p
    ensures r.Err? ==> r.error == [FieldError(AmountField, NotGreaterThanZero)]
  {
    var errors := PositiveErrors(p.amount);
    if errors == [] then Ok(p) else Err(errors)
  }

  function UpdateErrors(p: UpdatePayload): seq<FieldError> {
    PresenceErrors(DonorNameField, p.donorName, false)
    + PresenceErrors(DonationTypeField, p.donationType, false)
    + PresenceErrors(AmountField, p.amount, false) + PositiveErrors(p.amount)
    + PresenceErrors(DateField, p.date, false) + DateErrors(p.date)
  }

  /**
   * `DonationUpdate` validation corrected: explicit nulls are refused at the
   * boundary, every member may be left out, a given amount must exceed zero,
   * and a given date must be a real `YYYY-MM-DD` day, read as a calendar date
   * just as the create shape reads it. An accepted body turns into the
   * per-field "set or leave" record the merge consumes.
   */
  function ValidateUpdate(p: UpdatePayload): (r: Result<DonationUpdate, seq<FieldError>>)
    ensures r.Ok? <==>
      && !HasNull(p)
      && (p.amount.Given? ==> p.amount.value > 0.0)
      && (p.date.Given? ==> IsIsoDate(p.date.value))
    ensures r.Ok? ==>
      && r.value.donorName == (if p.donorName.Given? then Some(p.donorName.value) else None)
      && r.value.donationType == (if p.donationType.Given? then Some(p.donationType.value) else None)
      && r.value.amount == (if p.amount.Given? then Some(p.amount.value) else None)
      && (r.value.date.Some? <==> p.date.Given?)
    ensures r.Ok? && r.value.date.Some? ==> FormatIsoDate(r.value.date.value) == p.date.value
    ensures r.Err? ==> |r.error| > 0
    ensures r.Err? && p.donorName.Null? ==> FieldError(DonorNameField, NullGiven) in r.error
    ensures r.Err? && p.donationType.Null? ==> FieldError(DonationTypeField, NullGiven) in r.error
    ensures r.Err? && p.amount.Null? ==> FieldError(AmountField, NullGiven) in r.error
    ensures r.Err? && p.date.Null? ==> FieldError(DateField, NullGiven) in r.error
    ensures r.Err? && p.amount.Given? && p.amount.value <= 0.0 ==>
      FieldError(AmountField, NotGreaterThanZero) in r.error
    ensures r.Err? && p.date.Given? && !IsIsoDate(p.date.value) ==>
      FieldError(DateField, NotADate) in r.error
  {
    var errors := UpdateErrors(p);
    if errors == [] then
      var date: Option<CalendarDate> :=
        if p.date.Given? then (FormatParse(p.date.value); Some(ParseIsoDate(p.date.value).value)) else None;
      Ok(DonationUpdate(Present(p.donorName), Present(p.donationType), Present(p.amount), date))
    else
      Err(errors)
  }

  /**
   * The fields an update writes, with their values: the dictionary
   * `dict(exclude_unset=True)` yields for an accepted update. A date is
   * written in the `YYYY-MM-DD` form rows hold.
   */
  function UpdateData(u: DonationUpdate): (m: map<FieldName, FieldValue>)
    ensures DonorNameField in m <==> u.donorName.Some?
    ensures DonationTypeField in m <==> u.donationType.Some?
    ensures AmountField in m <==> u.amount.Some?
    ensures DateField in m <==> u.date.Some?
    ensures DonorNameField in m ==> m[DonorNameField] == Text(u.donorName.value)
    ensures DonationTypeField in m ==> m[DonationTypeField] == Text(u.donationType.value)
    ensures AmountField in m ==> m[AmountField] == Number(u.amount.value)
    ensures DateField in m ==> m[DateField] == Text(FormatIsoDate(u.date.value))
  {
    var m0: map<FieldName, FieldValue> := map[];
    var m1 := if u.donorName.Some? then m0[DonorNameField := Text(u.donorName.value)] else m0;
    var m2 := if u.donationType.Some? then m1[DonationTypeField := Text(u.donationType.value)] else m1;
    var m3 := if u.amount.Some? then m2[AmountField := Number(u.amount.value)] else m2;
    if u.date.Some? then m3[DateField := Text(FormatIsoDate(u.date.value))] else m3
  }

  /**
   * The response built from a stored row. It fails exactly when the row
   * breaks a constraint the response shape inherits from `DonationBase`.
   */
  function ToResponse(d: Donation): (r: Result<DonationResponse, seq<FieldError>>)
    ensures r.Ok? <==> d.amount > 0.0 && IsIsoDate(d.date)
    ensures r.Ok? ==> ValidDate(r.value.date) && FromResponse(r.value) == d
  {
    if d.amount > 0.0 && IsIsoDate(d.date) then
      FormatParse(d.date);
      Ok(DonationResponse(d.id, d.donorName, d.donationType, d.amount, ParseIsoDate(d.date).value))
    else
      Err((if d.amount > 0.0 then [] else [FieldError(AmountField, NotGreaterThanZero)])
        + (if IsIsoDate(d.date) then [] else [FieldError(DateField, NotADate)]))
  }

  /** The row a response describes. */
  function FromResponse(r: DonationResponse): Donation
    requires ValidDate(r.date)
  {
    Donation(r.id, r.donorName, r.donationType, r.amount, FormatIsoDate(r.date))
  }

  /** Every well-formed response is the response of the row it describes. */
  lemma ResponseRoundTrip(r: DonationResponse)
    requires ValidDate(r.date) && r.amount > 0.0
    ensures ToResponse(FromResponse(r)) == Ok(r)
  {
    ParseFormat(r.date);
  }
}
