/** The maintenance history (pages/customer-vehicle/MaintenanceHistory.tsx):
    fetched records sorted in place, newest service date first, and a search
    over owner name, car number and the service items. */
module MaintenanceHistory {
  import opened Seqs
  import opened Text
  import opened Types
  import Vehicles

  /** `a` was serviced no earlier than `b`. ISO 8601 dates (`YYYY-MM-DD`)
      compare in time as they compare as strings. */
  predicate NotOlder(a: MaintenanceRecord, b: MaintenanceRecord)
  {
    !LexLess(a.serviceDate, b.serviceDate)
  }

  /** Newest first: no record is followed by a later-serviced one. */
  predicate NewestFirst(s: seq<MaintenanceRecord>)
  {
    forall p, q :: 0 <= p < q < |s| ==> NotOlder(s[p], s[q])
  }

  lemma NotOlderTransitive(a: MaintenanceRecord, b: MaintenanceRecord, c: MaintenanceRecord)
    requires NotOlder(a, b) && NotOlder(b, c)
    ensures NotOlder(a, c)
  {
    var x, y, z := a.serviceDate, b.serviceDate, c.serviceDate;
    if LexLess(x, z) {
      LexLessTotal(x, y);
      if LexLess(y, x) {
        LexLessTransitive(y, x, z);
      }
    }
  }

  lemma OlderIsNotNewer(a: MaintenanceRecord, b: MaintenanceRecord)
    requires LexLess(a.serviceDate, b.serviceDate)
    ensures NotOlder(b, a)
  {
    if LexLess(b.serviceDate, a.serviceDate) {
      LexLessTransitive(a.serviceDate, b.serviceDate, a.serviceDate);
      LexLessIrreflexive(a.serviceDate);
    }
  }

  /** Insertion of the record at `j` into the sorted prefix `s[..i + 1]` is
      under way: the prefix is sorted apart from position `j`, and the record
      at `j` is not older than any record after it in the prefix. */
  predicate Inserting(s: seq<MaintenanceRecord>, i: int, j: int)
  {
    0 <= j <= i < |s|
    && (forall p, q :: 0 <= p < q <= i && p != j && q != j ==> NotOlder(s[p], s[q]))
    && (forall q :: j < q <= i ==> NotOlder(s[j], s[q]))
  }

  function SwapDown(s: seq<MaintenanceRecord>, j: int): seq<MaintenanceRecord>
    requires 0 < j < |s|
  {
    s[j - 1 := s[j]][j := s[j - 1]]
  }

  /** Swapping the record at `j` with an older one before it moves the
      insertion one place left. */
  lemma InsertingStep(s: seq<MaintenanceRecord>, i: int, j: int)
    requires Inserting(s, i, j) && j > 0 && LexLess(s[j - 1].serviceDate, s[j].serviceDate)
    ensures Inserting(SwapDown(s, j), i, j - 1)
  {
    OlderIsNotNewer(s[j - 1], s[j]);
  }

  /** Once the record before `j` is not older, the whole prefix is sorted. */
  lemma InsertingDone(s: seq<MaintenanceRecord>, i: int, j: int)
    requires Inserting(s, i, j) && (j == 0 || NotOlder(s[j - 1], s[j]))
    ensures NewestFirst(s[..i + 1])
  {
    forall p, q | 0 <= p < q <= i ensures NotOlder(s[p], s[q]) {
      if q == j && p < j - 1 {
        NotOlderTransitive(s[p], s[j - 1], s[j]);
      }
    }
  }

  /** Moves `a[i]` left past the older records before it, so that the sorted
      prefix `a[..i]` grows to the sorted prefix `a[..i + 1]`. */
  method InsertNewestFirst(a: array<MaintenanceRecord>, i: int)
    requires 0 <= i < a.Length && NewestFirst(a[..i])
    modifies a
    ensures NewestFirst(a[..i + 1])
    ensures multiset(a[..]) == multiset(old(a[..]))
  {
    var j := i;
    assert Inserting(a[..], i, j);
    while j > 0 && LexLess(a[j - 1].serviceDate, a[j].serviceDate)
      invariant Inserting(a[..], i, j)
      invariant multiset(a[..]) == multiset(old(a[..]))
    {
      InsertingStep(a[..], i, j);
      ghost var before := a[..];
      a[j - 1], a[j] := a[j], a[j - 1];
      assert a[..] == SwapDown(before, j);
      j := j - 1;
    }
    InsertingDone(a[..], i, j);
  }

  /** The `sort` in `loadRecords`: in place, newest service date first, the
      same records as before. */
  method SortNewestFirst(a: array<MaintenanceRecord>)
    modifies a
    ensures NewestFirst(a[..])
    ensures multiset(a[..]) == multiset(old(a[..]))
  {
    var i := 0;
    while i < a.Length
      invariant 0 <= i <= a.Length
      invariant NewestFirst(a[..i])
      invariant multiset(a[..]) == multiset(old(a[..]))
    {
      InsertNewestFirst(a, i);
      i := i + 1;
    }
    assert a[..a.Length] == a[..];
  }

  /** The search test: the term occurs, ignoring case, in the owner's name,
      the car number or one of the service items (`service_items.some`). */
  function RecordMatches(term: string): MaintenanceRecord -> bool
  {
    (r: MaintenanceRecord) => IncludesIgnoringCase(r.customerName, term)
      || IncludesIgnoringCase(r.carNumber, term)
      || exists k :: 0 <= k < |r.serviceItems| && IncludesIgnoringCase(r.serviceItems[k], term)
  }

  /** The effect on `[searchTerm, records]`. */
  function SearchRecords(records: seq<MaintenanceRecord>, term: string): seq<MaintenanceRecord>
  {
    if term != "" then Filter(RecordMatches(term), records) else records
  }

  /** The result keeps list order, holds exactly the matching records, is
      everything for '', never outnumbers the full list (`총 n건 / 전체 m건`),
      and is newest first when the list is. */
  lemma SearchRecordsSpec(records: seq<MaintenanceRecord>, term: string)
    ensures var r := SearchRecords(records, term);
      IsSubsequence(r, records) && |r| <= |records|
      && (term == "" ==> r == records)
      && (forall i :: 0 <= i < |r| ==> term == "" || RecordMatches(term)(r[i]))
      && (forall i :: 0 <= i < |records| && RecordMatches(term)(records[i]) ==> records[i] in r)
    ensures NewestFirst(records) ==> NewestFirst(SearchRecords(records, term))
  {
    if term == "" {
      SubsequenceReflexive(records);
    } else {
      FilterIsSubsequence(RecordMatches(term), records);
    }
    if NewestFirst(records) {
      SubsequenceNewestFirst(SearchRecords(records, term), records);
    }
  }

  /** A subsequence of a newest-first list is newest first: the search
      result stays sorted. */
  lemma {:induction false} SubsequenceNewestFirst(r: seq<MaintenanceRecord>, s: seq<MaintenanceRecord>)
    requires IsSubsequence(r, s) && NewestFirst(s)
    ensures NewestFirst(r)
    decreases |s|
  {
    if r != [] {
      var s' := s[..|s| - 1];
      assert NewestFirst(s');
      if r[|r| - 1] == s[|s| - 1] {
        var r' := r[..|r| - 1];
        SubsequenceNewestFirst(r', s');
        SubsequenceElements(r', s');
        forall p, q | 0 <= p < q < |r| ensures NotOlder(r[p], r[q]) {
          if q == |r| - 1 {
            assert r[p] == r'[p] && r'[p] in s';
            var k :| 0 <= k < |s'| && s'[k] == r[p];
          } else {
            assert r[p] == r'[p] && r[q] == r'[q];
          }
        }
      } else {
        SubsequenceNewestFirst(r, s');
      }
    }
  }

  class MaintenanceHistoryPage {
    var records: seq<MaintenanceRecord>
    var searchTerm: string

    constructor ()
      ensures records == [] && searchTerm == ""
    {
      records := [];
      searchTerm := "";
    }

    /** `loadRecords`: sorts the fetched array in place and keeps it. */
    method LoadRecords(fetched: array<MaintenanceRecord>)
      modifies this`records, fetched
      ensures records == fetched[..] && NewestFirst(records)
      ensures multiset(records) == multiset(old(fetched[..]))
    {
      SortNewestFirst(fetched);
      records := fetched[..];
    }

    method SetSearchTerm(term: string)
      modifies this`searchTerm
      ensures searchTerm == term && FilteredRecords() == SearchRecords(records, term)
    {
      searchTerm := term;
    }

    /** `filteredRecords`. */
    function FilteredRecords(): seq<MaintenanceRecord>
      reads this
    {
      SearchRecords(records, searchTerm)
    }

    /** The mileage column, shared with the vehicle list. */
    function MileageText(r: MaintenanceRecord): string
    {
      Vehicles.FormatMileage(r.mileage)
    }
  }
}
