/** The VeeTA persisted readings (`Measurement` for heights,
    `LengthMeasurement`, `TreeProiection` for crown diameters and
    `Clinometer` for inclinations) as plain values, and the date-descending
    order in which every history lists them. */
module Records {
  import opened Common

  /** One stored reading: the measured value (metres or degrees), the date it
      was taken and its notes. */
  datatype Record = Record(value: real, date: Date, notes: string)

  type HeightRecord = Record
  type LengthRecord = Record
  type DiameterRecord = Record
  type ClinometerRecord = Record

  /** `Measurement(height:notes:tree:)`, `LengthMeasurement(length:…)`,
      `TreeProiection(diameter:…)` and `Clinometer(inclination:…)` all stamp
      the reading with the current date; `now` stands for `Date()`. */
  function NewRecord(value: real, notes: string, now: Date): (r: Record)
    ensures r.value == value && r.notes == notes && r.date == now
  {
    Record(value, now, notes)
  }

  predicate NotOlder(a: Record, b: Record)
  {
    a.date.instant >= b.date.instant
  }

  /** Newest first, ties in any order. */
  predicate SortedByDateDesc(s: seq<Record>)
  {
    forall i, j :: 0 <= i < j < |s| ==> NotOlder(s[i], s[j])
  }

  /** Places `x` in front of the first record that is not newer than it. */
  function InsertByDate(x: Record, s: seq<Record>): (r: seq<Record>)
    ensures multiset(r) == multiset(s) + multiset{x}
  {
    if s == [] || NotOlder(x, s[0]) then
      [x] + s
    else
      assert s == [s[0]] + s[1..];
      [s[0]] + InsertByDate(x, s[1..])
  }

  /** Inserting into a newest-first list keeps it newest first. */
  lemma {:induction false} InsertByDateSorted(x: Record, s: seq<Record>)
    requires SortedByDateDesc(s)
    ensures SortedByDateDesc(InsertByDate(x, s))
  {
    if s != [] && !NotOlder(x, s[0]) {
      var rest := InsertByDate(x, s[1..]);
      InsertByDateSorted(x, s[1..]);
      assert s == [s[0]] + s[1..];
      forall y | y in rest
        ensures NotOlder(s[0], y)
      {
        assert y in multiset(rest);
        assert y == x || y in multiset(s[1..]);
      }
      var r := [s[0]] + rest;
      forall i, j | 0 <= i < j < |r|
        ensures NotOlder(r[i], r[j])
      {
        if i == 0 {
          assert r[j] in rest;
        } else {
          assert r[i] == rest[i - 1] && r[j] == rest[j - 1];
        }
      }
    }
  }

  /** `sorted { $0.date > $1.date }`: the records newest first. */
  function SortByDateDesc(s: seq<Record>): (r: seq<Record>)
    ensures multiset(r) == multiset(s)
  {
    if s == [] then []
    else
      assert s == [s[0]] + s[1..];
      InsertByDate(s[0], SortByDateDesc(s[1..]))
  }

  /** The sort of the histories really does put the newest first. */
  lemma {:induction false} SortByDateDescSorted(s: seq<Record>)
    ensures SortedByDateDesc(SortByDateDesc(s))
  {
    if s != [] {
      SortByDateDescSorted(s[1..]);
      InsertByDateSorted(s[0], SortByDateDesc(s[1..]));
    }
  }

  /** `sorted { $0.date > $1.date }.first`. */
  function Latest(s: seq<Record>): Option<Record>
  {
    var sorted := SortByDateDesc(s);
    if sorted == [] then None else Some(sorted[0])
  }

  /** There is a latest record exactly when the list is non-empty, and it is
      one of the records, none of which is newer. */
  lemma LatestIsNewest(s: seq<Record>)
    ensures Latest(s).None? <==> s == []
    ensures Latest(s).Some? ==> Latest(s).value in s
    ensures Latest(s).Some? ==> forall x :: x in s ==> NotOlder(Latest(s).value, x)
  {
    var sorted := SortByDateDesc(s);
    SortByDateDescSorted(s);
    if s == [] {
      assert multiset(sorted) == multiset{};
    } else {
      assert s[0] in multiset(sorted);
      assert sorted != [];
      assert sorted[0] in multiset(s);
      forall x | x in s
        ensures NotOlder(sorted[0], x)
      {
        assert x in multiset(sorted);
        var k :| 0 <= k < |sorted| && sorted[k] == x;
        assert k == 0 || NotOlder(sorted[0], sorted[k]);
      }
    }
  }
}
