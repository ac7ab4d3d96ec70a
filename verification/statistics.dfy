/**
 * The statistics summary of main.py:124-149: the number of donations, the
 * sum of their amounts, and per donation type the count and the summed
 * amount. Amounts are exact reals; floating-point rounding is not modelled.
 */
module Statistics {
  import opened Records
  import opened Handlers

  datatype TypeStats = TypeStats(count: nat, totalAmount: real)

  datatype Summary = Summary(
    totalDonations: nat,
    totalAmount: real,
    donationTypes: map<string, TypeStats>)

  /** The summary of an empty table (main.py:126-131). */
  const ZeroSummary: Summary := Summary(0, 0.0, map[])

  function Plus(a: TypeStats, b: TypeStats): TypeStats {
    TypeStats(a.count + b.count, a.totalAmount + b.totalAmount)
  }

  /** The sum of the amounts, added left to right (main.py:134). */
  function SumAmounts(ds: seq<Donation>): real
    decreases |ds|
  {
    if ds == [] then 0.0 else SumAmounts(ds[..|ds| - 1]) + ds[|ds| - 1].amount
  }

  /** The donations of one type, in listing order. */
  function OfType(ds: seq<Donation>, t: string): (r: seq<Donation>)
    ensures |r| <= |ds|
    ensures forall i :: 0 <= i < |r| ==> r[i].donationType == t && r[i] in ds
    decreases |ds|
  {
    if ds == [] then []
    else
      var last := ds[|ds| - 1];
      OfType(ds[..|ds| - 1], t) + (if last.donationType == t then [last] else [])
  }

  /** The distinct donation types present. */
  function TypesIn(ds: seq<Donation>): set<string> {
    set d | d in ds :: d.donationType
  }

  /**
   * The loop body of main.py:138-143: count one more donation of its type.
   * A new type starts at one donation of this amount; a known type gains one
   * and this amount; every other type keeps its entry.
   */
  function Tally(types: map<string, TypeStats>, d: Donation): (r: map<string, TypeStats>)
    ensures r.Keys == types.Keys + {d.donationType}
    ensures d.donationType !in types ==> r[d.donationType] == TypeStats(1, d.amount)
    ensures d.donationType in types ==>
      r[d.donationType] == Plus(types[d.donationType], TypeStats(1, d.amount))
    ensures forall t :: t in types && t != d.donationType ==> r[t] == types[t]
  {
    var prior := if d.donationType in types then types[d.donationType] else TypeStats(0, 0.0);
    types[d.donationType := TypeStats(prior.count + 1, prior.totalAmount + d.amount)]
  }

  /**
   * The per-type table main.py:137-143 builds, one donation at a time. An
   * entry exists only once a donation of its type has been counted.
   */
  function GroupByType(ds: seq<Donation>): (r: map<string, TypeStats>)
    ensures |r| <= |ds|
    ensures forall t :: t in r ==> r[t].count >= 1
    decreases |ds|
  {
    if ds == [] then map[] else Tally(GroupByType(ds[..|ds| - 1]), ds[|ds| - 1])
  }

  lemma SumAmountsAppend(ds: seq<Donation>, d: Donation)
    ensures SumAmounts(ds + [d]) == SumAmounts(ds) + d.amount
  {
  }

  lemma TypesInAppend(ds: seq<Donation>, d: Donation)
    ensures TypesIn(ds + [d]) == TypesIn(ds) + {d.donationType}
  {
  }

  /** One more donation adds its type to the grouping's keys, and no other. */
  lemma {:induction false} GroupKeys(ds: seq<Donation>)
    ensures GroupByType(ds).Keys == TypesIn(ds)
    decreases |ds|
  {
    if ds != [] {
      var prefix := ds[..|ds| - 1];
      var last := ds[|ds| - 1];
      assert ds == prefix + [last];
      GroupKeys(prefix);
      TypesInAppend(prefix, last);
    }
  }

  /** The entry for a type counts the donations of that type and sums their amounts. */
  lemma {:induction false} GroupEntry(ds: seq<Donation>, t: string)
    requires t in GroupByType(ds)
    ensures GroupByType(ds)[t] == TypeStats(|OfType(ds, t)|, SumAmounts(OfType(ds, t)))
    decreases |ds|
  {
    var prefix := ds[..|ds| - 1];
    var last := ds[|ds| - 1];
    var before := GroupByType(prefix);
    if t == last.donationType {
      SumAmountsAppend(OfType(prefix, t), last);
      if t in before {
        GroupEntry(prefix, t);
      } else {
        GroupKeys(prefix);
        assert forall d :: d in prefix ==> d.donationType in TypesIn(prefix);
        assert OfType(prefix, t) == [];
      }
    } else {
      assert OfType(ds, t) == OfType(prefix, t);
      GroupEntry(prefix, t);
    }
  }

  /**
   * The grouping has a key for exactly the types present, and under each the
   * number of donations of that type and the sum of their amounts.
   */
  lemma GroupByTypeCorrect(ds: seq<Donation>)
    ensures GroupByType(ds).Keys == TypesIn(ds)
    ensures forall t :: t in GroupByType(ds) ==>
      GroupByType(ds)[t] == TypeStats(|OfType(ds, t)|, SumAmounts(OfType(ds, t)))
  {
    GroupKeys(ds);
    forall t | t in GroupByType(ds)
      ensures GroupByType(ds)[t] == TypeStats(|OfType(ds, t)|, SumAmounts(OfType(ds, t)))
    {
      GroupEntry(ds, t);
    }
  }

  /**
   * `get_donation_stats` over a listing: the fixed zero summary when there
   * are no donations, otherwise the count, the amount sum, and the per-type
   * table whose keys are exactly the types present.
   */
  function Summarize(ds: seq<Donation>): (r: Summary)
    ensures ds == [] ==> r == ZeroSummary
    ensures r.totalDonations == |ds|
    ensures r.totalAmount == SumAmounts(ds)
    ensures r.donationTypes.Keys == TypesIn(ds)
    ensures forall t :: t in r.donationTypes ==>
      r.donationTypes[t] == TypeStats(|OfType(ds, t)|, SumAmounts(OfType(ds, t)))
  {
    if ds == [] then ZeroSummary
    else
      GroupByTypeCorrect(ds);
      Summary(|ds|, SumAmounts(ds), GroupByType(ds))
  }

  /** The count and amount totals over all entries of a per-type table. */
  ghost function Totals(m: map<string, TypeStats>): TypeStats
    decreases m.Keys
  {
    if m == map[] then TypeStats(0, 0.0)
    else
      NonEmptyHasMember(m.Keys);
      var k :| k in m;
      Plus(m[k], Totals(m - {k}))
  }

  /** Totals do not depend on which entry is taken out first. */
  lemma {:induction false} TotalsRemove(m: map<string, TypeStats>, k: string)
    requires k in m
    ensures Totals(m) == Plus(m[k], Totals(m - {k}))
    decreases m.Keys
  {
    NonEmptyHasMember(m.Keys);
    var j :| j in m && Totals(m) == Plus(m[j], Totals(m - {j}));
    if j != k {
      var mj := m - {j};
      var mk := m - {k};
      assert k in mj && mj[k] == m[k];
      assert j in mk && mk[j] == m[j];
      TotalsRemove(mj, k);
      TotalsRemove(mk, j);
      var rest := mj - {k};
      assert rest == mk - {j};
      assert Totals(m) == Plus(m[j], Plus(m[k], Totals(rest)));
      assert Totals(mk) == Plus(m[j], Totals(rest));
    }
  }

  /** Tallying one donation adds one to the count total and its amount to the amount total. */
  lemma TotalsTally(m: map<string, TypeStats>, d: Donation)
    ensures Totals(Tally(m, d)) == Plus(Totals(m), TypeStats(1, d.amount))
  {
    var t := d.donationType;
    var m' := Tally(m, d);
    TotalsRemove(m', t);
    assert m' - {t} == m - {t};
    if t in m {
      TotalsRemove(m, t);
    } else {
      assert m - {t} == m;
    }
  }

  /** The per-type counts sum to the number of donations, the per-type amounts to the amount sum. */
  lemma {:induction false} GroupTotals(ds: seq<Donation>)
    ensures Totals(GroupByType(ds)) == TypeStats(|ds|, SumAmounts(ds))
    decreases |ds|
  {
    if ds != [] {
      GroupTotals(ds[..|ds| - 1]);
      TotalsTally(GroupByType(ds[..|ds| - 1]), ds[|ds| - 1]);
    }
  }

  /**
   * The summary is consistent with itself: its per-type counts add up to
   * its donation count and its per-type amounts to its amount total.
   */
  lemma SummaryTotalsAgree(ds: seq<Donation>)
    ensures Totals(Summarize(ds).donationTypes)
         == TypeStats(Summarize(ds).totalDonations, Summarize(ds).totalAmount)
  {
    if ds != [] {
      GroupTotals(ds);
    }
  }

  /** The filters, sums and types of a two-donation listing with distinct types. */
  lemma PairFacts(a: Donation, b: Donation)
    requires a.donationType != b.donationType
    ensures OfType([a, b], a.donationType) == [a]
    ensures OfType([a, b], b.donationType) == [b]
    ensures SumAmounts([a]) == a.amount && SumAmounts([b]) == b.amount
    ensures SumAmounts([a, b]) == a.amount + b.amount
    ensures TypesIn([a, b]) == {a.donationType, b.donationType}
  {
  }

  /** Two donations of different types: each type gets its own entry, and the totals add up. */
  lemma SummaryOfTwoTypes(a: Donation, b: Donation)
    requires a.donationType != b.donationType
    ensures Summarize([a, b]) == Summary(2, a.amount + b.amount,
      map[a.donationType := TypeStats(1, a.amount), b.donationType := TypeStats(1, b.amount)])
  {
    PairFacts(a, b);
    assert [a, b][..1] == [a];
    assert [a][..0] == [];
    var first := GroupByType([a]);
    assert first == map[a.donationType := TypeStats(1, a.amount)];
    var expected := map[a.donationType := TypeStats(1, a.amount), b.donationType := TypeStats(1, b.amount)];
    assert GroupByType([a, b]) == Tally(first, b);
    assert Tally(first, b).Keys == expected.Keys;
    assert Tally(first, b) == expected;
  }

  /** The types a listing shows are exactly the types stored. */
  /** A listing holding each stored row, and only stored rows, shows exactly the stored types. */
  lemma TypesOfRows(records: map<int, Donation>, ds: seq<Donation>)
    requires forall i :: 0 <= i < |ds| ==> ds[i] in records.Values
    requires forall id :: id in records ==> records[id] in ds
    ensures TypesIn(ds) == set id | id in records :: records[id].donationType
  {
    var stored := set id | id in records :: records[id].donationType;
    forall t | t in TypesIn(ds) ensures t in stored {
      var d :| d in ds && d.donationType == t;
      var i :| 0 <= i < |ds| && ds[i] == d;
      assert d in records.Values;
      if forall id :: id in records ==> records[id] != d {
        assert false;
      }
      var id :| id in records && records[id] == d;
    }
  }

  lemma ListedTypes(s: Store)
    ensures TypesIn(ListDonations(s)) == set id | id in s.records :: s.records[id].donationType
  {
    TypesOfRows(s.records, ListDonations(s));
  }

  /**
   * `get_donation_stats` (main.py:124-149) on the store: it summarizes the
   * listing, so it counts every row, and its type table has a key for
   * exactly the donation types stored.
   */
  ghost function DonationStats(s: Store): (r: Summary)
    ensures s.records == map[] ==> r == ZeroSummary
    ensures r.totalDonations == |s.records|
    ensures r.donationTypes.Keys == set id | id in s.records :: s.records[id].donationType
  {
    ListedTypes(s);
    Summarize(ListDonations(s))
  }
}
