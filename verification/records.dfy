/**
 * The donations table (models/donation.py): one row per donation, keyed by
 * an integer id that storage assigns on insert. Every column is NOT NULL,
 * which the model expresses by giving each field a non-optional type;
 * storage places no constraint on `amount` beyond that.
 */
module Records {

  /** A row. `date` is held as its text; rows written by a create hold `YYYY-MM-DD`. */
  datatype Donation = Donation(
    id: int,
    donorName: string,
    donationType: string,
    amount: real,
    date: string)

  /** The four columns a caller may write (everything but `id`). */
  datatype FieldName = DonorNameField | DonationTypeField | AmountField | DateField

  /** The value of one writable column. */
  datatype FieldValue = Text(text: string) | Number(number: real)

  function FieldOf(d: Donation, f: FieldName): FieldValue {
    match f
    case DonorNameField => Text(d.donorName)
    case DonationTypeField => Text(d.donationType)
    case AmountField => Number(d.amount)
    case DateField => Text(d.date)
  }

  /**
   * The persistent state: the table, as a map from primary key to row, and
   * the supply the next id is drawn from.
   */
  datatype Store = Store(records: map<int, Donation>, nextId: int)

  /**
   * The primary-key invariant: each row sits under its own id, so no two rows
   * share one, and every id in use lies below the supply.
   */
  predicate Valid(s: Store) {
    forall id :: id in s.records ==> s.records[id].id == id && id < s.nextId
  }

  /** The table as it is first created. */
  const Empty: Store := Store(map[], 1)

  /**
   * Inserts a row built from the four column values; storage, not the caller,
   * picks the id, and picks one no current row has.
   */
  function Insert(s: Store, donorName: string, donationType: string, amount: real, date: string)
    : (r: (Store, Donation))
    requires Valid(s)
    ensures Valid(r.0)
    ensures r.1.id !in s.records
    ensures r.0.records == s.records[r.1.id := r.1]
    ensures r.1 == Donation(r.1.id, donorName, donationType, amount, date)
  {
    var row := Donation(s.nextId, donorName, donationType, amount, date);
    (Store(s.records[row.id := row], s.nextId + 1), row)
  }
}
