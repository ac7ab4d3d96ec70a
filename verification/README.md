# Donation Inventory API — a Dafny model of its record-keeping contract

The Donation Inventory API keeps a single table of donations. It has
create, read, partial-update, delete and summary-statistics operations, and
it validates request bodies before it touches storage. This project models
that contract as a state machine over an immutable store, and proves what
each operation promises.

- The **store** (`Records.Store`) is a finite map from integer id to a
  `Donation` row, plus the supply that new ids come from. `Records.Valid` is
  the primary-key invariant: each row sits under its own id, and every id
  lies below the supply.
- **Validation** (`Schemas`) works on request bodies whose members may each
  be absent, an explicit `null`, or a value (`Slot`). It reports one error
  per offending field, in declaration order. The create shape needs all
  four fields, an amount above zero and a real `YYYY-MM-DD` date. The
  update shape makes every field optional, and still holds a given amount
  to `> 0`.
- The **handlers** (`Handlers`) are pure functions from a store (and a
  request) to a new store and a `Result`. Failures are the variants of
  `Handlers.Error`: `NotFound`, `Invalid`, and, only in the as-written
  update, the storage failures `DateTypeError` and `NotNullViolation`.
- The **statistics** (`Statistics`) fold the listing into a count, an
  amount total and a per-type table, as the loop in the source does.
- The **dates** (`Dates`) are a `YYYY-MM-DD` codec, with round trips proved
  in both directions.

Module by module:

| file | module | models |
|---|---|---|
| results.dfy | Results | `Option`, `Result` |
| dates.dfy | Dates | the calendar date of the `date` field and its text form |
| records.dfy | Records | models/donation.py: the row, the table, id assignment |
| schemas.dfy | Schemas | schemas/api_schemas.py: create, update and response shapes |
| handlers.dfy | Handlers | main.py: list, get, create, update, delete |
| lifecycle.dfy | Lifecycle | properties across handler calls; the table invariants |
| statistics.dfy | Statistics | main.py: the statistics summary |

Three points where the model follows the code rather than what one might
assume of such an API:
- Ids are not promised to be unique over the table's lifetime.
  `Column(Integer, primary_key=True, autoincrement=True)` does not promise
  that for this engine, so the model promises only that a new id is fresh
  in the current store.
- An update does not only skip the fields a body leaves out. It also writes
  an explicit `null` into its field; see Findings.
- The update schema declares `date` as a plain string, while the `date`
  column is a SQLite `Date` column, which binds only date objects. As
  written, every update that gives a date therefore fails in storage; see
  Findings. The corrected update reads the date as a calendar date, as the
  create shape does.

## Model

| member | source | states |
|---|---|---|
| Dates.ParseIsoDate | schemas/api_schemas.py:10 | A date text is accepted only if it has the `YYYY-MM-DD` shape and names a day that exists, with year 1–9999. |
| Dates.ParseFormat | schemas/api_schemas.py:10 | Writing any valid date as `YYYY-MM-DD` and reading it back gives the same date. |
| Dates.FormatParse | schemas/api_schemas.py:10 | Any accepted date text is exactly the `YYYY-MM-DD` text of the date it denotes. |
| Records.Valid | models/donation.py:7 | The primary-key invariant: every row sits under its own id, so no two rows share one, and every id in use lies below the id supply. |
| Records.Insert | models/donation.py:7 | Storage, not the caller, picks the id. The new id is not in the table, the new row holds the given column values, the old rows remain, and the primary-key invariant still holds. |
| Schemas.ValidateCreate | schemas/api_schemas.py:5-14 | A create body is accepted exactly when all four fields are given, the amount is > 0 and the date is a real day. An accepted body keeps its values. A rejected body gets at least one error, naming each missing field, a non-positive amount and a bad date. |
| Schemas.ValidateUpdateAsWritten | schemas/api_schemas.py:16-21 | As declared, an update body is rejected only when it gives an amount ≤ 0. Absent and `null` members both pass, and the date is not checked. |
| Schemas.ValidateUpdate | schemas/api_schemas.py:16-21 | The corrected update validation accepts exactly the bodies with no `null` member, no given amount ≤ 0 and no given date that is not a real `YYYY-MM-DD` day. Each given member becomes "set to this value" and each absent member becomes "leave as is"; a given date becomes the calendar date whose text it is. Each `null` member, a non-positive amount and a bad date are reported. |
| Schemas.UpdateData | main.py:91 | The fields an update writes are exactly the members the body gives (`exclude_unset`), each with the body's value, and a date in its `YYYY-MM-DD` form. |
| Schemas.ToResponse | schemas/api_schemas.py:23-25 | A row has a response exactly when it meets the base constraints (amount > 0, valid date). The response carries the row's id and fields, and converting it back gives the row. |
| Schemas.ResponseRoundTrip | schemas/api_schemas.py:23-25 | Every well-formed response is the response of the row it describes. |
| Handlers.ListDonations | main.py:47-51 | The listing has one entry per stored row: every stored row appears, each entry is a stored row, no two entries share an id, and an empty store lists nothing. |
| Handlers.GetDonation | main.py:53-59 | Returns the row stored under the id, and that row carries the id. When no row has the id, returns not-found naming it. |
| Handlers.CreateDonation | main.py:61-75 | A rejected body returns `Invalid` and leaves the store unchanged. An accepted body adds exactly one row under a fresh id, holding the four body values unchanged, and keeps the invariant. |
| Handlers.Merge | main.py:90-94 | Each field the update sets takes the update's value. Every other field, and the id, keep their prior values. |
| Handlers.UpdateDonation | main.py:77-100 | An invalid body or an absent id changes nothing. Otherwise only the row under the id changes, and it becomes the merge of the old row with the body. No other row changes, and the key set and id supply stay the same. |
| Handlers.UpdateDonationAsWritten | main.py:77-100 | The code as written: for a present id, a body that gives a date passes validation and then fails in storage, because the `Date` column refuses text; a body with a `null` member and no date fails on the NOT NULL column. A failure writes nothing, and no update changes a stored date. For bodies with no null and no date it equals `UpdateDonation`. |
| Handlers.DeleteDonation | main.py:102-115 | A present id loses exactly its row, the reply confirms that id, and no other row changes. An absent id returns not-found and changes nothing. |
| Lifecycle.CreateThenGet | main.py:56-75 | After a successful create, getting the new id returns exactly the created row. |
| Lifecycle.CreateKeepsOtherRows | main.py:64-75 | A create changes what no existing id reads. |
| Lifecycle.DeleteThenGet | main.py:107-115 | After a delete, getting that id returns not-found. |
| Lifecycle.DeleteKeepsOtherRows | main.py:107-115 | A delete changes what no other id reads. |
| Lifecycle.DeleteTwice | main.py:107-109 | A second delete of the same id returns not-found and changes nothing. |
| Lifecycle.UpdateKeepsOtherRows | main.py:86-98 | An update changes what no other id reads. |
| Lifecycle.UpdateEmptyIsIdentity | main.py:91-94 | An update that sets nothing leaves the store unchanged and answers what a get would. |
| Lifecycle.UpdateTwice | main.py:91-98 | Applying the same update a second time changes nothing more. |
| Lifecycle.UpdateOnlyAmount | main.py:91-94 | Updating only the amount changes the amount, and donor, type, date and id stay as they were. |
| Lifecycle.NullUpdateFailsInStorage | main.py:91-97 | With the code as written, `{"donor_name": null}` sent to a stored id passes validation and then fails in storage. |
| Lifecycle.DateUpdateFailsInStorage | main.py:91-97 | With the code as written, `{"date": "2024-02-02"}` sent to a stored id passes validation and then fails in storage, leaving the store unchanged. |
| Lifecycle.AsWrittenUpdateKeepsDates | main.py:91-97 | With the code as written, no update changes the key set or any stored date. |
| Lifecycle.DateUpdateStoresDate | schemas/api_schemas.py:21 | With the date read at the boundary, an update giving a real `YYYY-MM-DD` day succeeds and changes exactly the row's date, to that day. |
| Lifecycle.UpdateFailsOnlyBeforeStorage | schemas/api_schemas.py:18-21 | With nulls and non-dates refused at the boundary, every update failure is `Invalid` or `NotFound`, never a storage failure, and any body with a `null` is rejected as invalid whatever the id. |
| Lifecycle.CreatePreservesRowInvariants | schemas/api_schemas.py:9-10 | A create keeps every stored amount > 0 and every stored date a valid `YYYY-MM-DD` day. |
| Lifecycle.UpdatePreservesRowInvariants | schemas/api_schemas.py:20-21 | The corrected update keeps every stored amount > 0 and every stored date a valid `YYYY-MM-DD` day. |
| Lifecycle.DeletePreservesRowInvariants | main.py:107-113 | A delete keeps both row invariants. |
| Lifecycle.WellFormedRowsHaveResponses | schemas/api_schemas.py:23-25 | While both row invariants hold, every row that get returns has a response. |
| Statistics.Tally | main.py:138-143 | Counting one donation gives its type an entry, starting at count 1 and its amount or adding 1 and its amount to the existing entry, and leaves every other type's entry as it was. |
| Statistics.GroupByType | main.py:137-143 | The per-type table has no more entries than donations, and every entry counts at least one donation. |
| Statistics.GroupKeys | main.py:137-143 | The per-type table has a key for exactly the donation types present. |
| Statistics.GroupEntry | main.py:138-143 | Each type's entry holds the number of donations of that type and the sum of their amounts. |
| Statistics.GroupByTypeCorrect | main.py:137-143 | The per-type table's keys are exactly the types present, and each entry is that type's count and amount sum. |
| Statistics.Summarize | main.py:126-149 | No donations give the fixed zero summary. Otherwise the summary holds the count, the amount sum, and per-type entries keyed by exactly the types present, each with its count and amount sum. |
| Statistics.TotalsTally | main.py:140-143 | Tallying one donation adds one to the summed counts and its amount to the summed amounts. |
| Statistics.GroupTotals | main.py:134-146 | The per-type counts sum to the number of donations, and the per-type amounts sum to the amount total. |
| Statistics.SummaryTotalsAgree | main.py:126-149 | In every summary, the per-type counts add up to `total_donations` and the per-type amounts to `total_amount`. |
| Statistics.SummaryOfTwoTypes | main.py:134-148 | Two donations of different types give count 2, the sum of the two amounts, and one entry per type with count 1 and that donation's amount. |
| Statistics.TypesOfRows | main.py:124 | Any listing that holds each stored row and only stored rows shows exactly the stored donation types. |
| Statistics.ListedTypes | main.py:124 | The types that the listing shows are exactly the types stored. |
| Statistics.DonationStats | main.py:121-149 | On the store: an empty store gives the zero summary, the count is the number of rows, and the type keys are exactly the stored donation types. |

## Left out

- FastAPI application construction, routing, the `lifespan` hook, the root metadata endpoint and the uvicorn bootstrap (main.py:14-45, 151-155). These are framework wiring.
- database.py and utils/db_utils.py: the engine, the session factory and the per-request session. This is I/O plumbing. Each handler is one atomic step over the store.
- HTTP status codes, the JSON encoding and the exact `detail` / `message` texts. Failures are `Handlers.Error` variants. Delete confirms with the id it removed.
- Floating-point amounts are modelled as exact reals. The model makes no claim about rounding in the sums, and excludes NaN and infinities.
- Pydantic's lax coercions are not modelled: numeric strings as floats, timestamps or datetime strings as dates. Bodies arrive already typed, and a create date must be exactly `YYYY-MM-DD`.
- Ids come from a counter in the store. Only freshness with respect to the current store is promised. The engine's own rowid policy, including reuse after deletes, is not modelled.
- Concurrent requests and lost updates are not modelled. Each request is one atomic transition.
- The engine's error texts and the HTTP status of a failed commit are not modelled. A storage failure is the `DateTypeError` or `NotNullViolation` variant, with nothing written. When a body both gives a date and sets another member to null, the model reports the date's failure, which arises while the update's values are bound, before the row reaches the NOT NULL check.
- The framework validates each returned row against the response shape. This is modelled as `Schemas.ToResponse`. The handlers return the row itself, as the source does.
- Handlers.ListDonations: promises the content of the listing (every row exactly once) but no order, because the query has no ordering.
- Statistics.DonationStats: states the count and the type keys in terms of the stored rows. The per-type counts and amounts are stated over the listing, through `Statistics.Summarize`.

## Findings

| source | as written | input that shows it | evidently intended | confidence | as-written member | corrected member |
|---|---|---|---|---|---|---|
| schemas/api_schemas.py:18-21, main.py:91-94, models/donation.py:8-11 | Every `DonationUpdate` member is `Optional`, so an explicit `null` passes validation. `dict(exclude_unset=True)` keeps that member, and `setattr` writes `None` into a NOT NULL column, so the commit fails in storage. | `PUT /donations/1` with body `{"donor_name": null}` while row 1 exists | A `null` member is refused at the boundary as a validation error, before storage, and no field is ever set to null | medium, not executed | Handlers.UpdateDonationAsWritten | Handlers.UpdateDonation |
| schemas/api_schemas.py:21, models/donation.py:11, main.py:91-97 | The update schema passes `date` through as a `str`, and `setattr` puts that text on the `Date` column. SQLite's `Date` type binds only date objects, so the commit fails for every update that gives a date, a valid `YYYY-MM-DD` text included. No update can ever change a stored date. | `PUT /donations/1` with body `{"date": "2024-02-02"}` while row 1 exists | The update date is read as a calendar date, as the create date is, so a real day is stored and a non-date is refused at the boundary | medium, not executed | Handlers.UpdateDonationAsWritten | Handlers.UpdateDonation |
