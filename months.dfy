/** The month views of the record pages: `${year}-${String(month).padStart(2, '0')}`
    and the `startsWith` test the sales, expense and receivable lists are
    filtered by (ISO 8601 calendar month `YYYY-MM`). */
module Months {
  import opened Seqs
  import opened Text
  import opened Calendar

  /** `selectedMonthStr`. */
  function MonthKey(year: int, month: int): string
  {
    IntToString(year) + "-" + PadStart2(IntToString(month))
  }

  /** `date.startsWith(monthKey)`. */
  predicate StartsWith(date: string, prefix: string)
  {
    prefix <= date
  }

  /** The test of a month filter over records whose date `dateOf` picks out. */
  function DatedIn<T>(dateOf: T -> string, key: string): T -> bool
  {
    (x: T) => StartsWith(dateOf(x), key)
  }

  /** `records.filter(r => dateOf(r).startsWith(key))`. */
  function MonthView<T>(records: seq<T>, dateOf: T -> string, key: string): seq<T>
  {
    Filter(DatedIn(dateOf, key), records)
  }

  /** A month view keeps exactly the records whose date starts with the key,
      in their order. */
  lemma MonthViewSpec<T>(records: seq<T>, dateOf: T -> string, key: string)
    ensures var r := MonthView(records, dateOf, key);
      (forall i :: 0 <= i < |r| ==> StartsWith(dateOf(r[i]), key) && r[i] in records)
      && (forall i :: 0 <= i < |records| && StartsWith(dateOf(records[i]), key) ==> records[i] in r)
      && IsSubsequence(r, records)
  {
    FilterIsSubsequence(DatedIn(dateOf, key), records);
  }

  lemma MonthKeyShape(year: nat, month: int)
    requires 1 <= month <= 12
    ensures MonthKey(year, month) == NatToString(year) + "-" + Pad2(month)
    ensures |Pad2(month)| == 2 && AllDigits(Pad2(month)) && DigitsValue(Pad2(month)) == month
  {
    Pad2Numeral(month);
  }

  /** A date's ISO string is its month key followed by `-DD`. */
  lemma DateKeySplit(d: Date)
    requires ValidDate(d) && d.year >= 0
    ensures DateKey(d) == MonthKey(d.year, d.month) + ("-" + Pad2(d.day))
  {
    var dy: nat := d.year;
    MonthKeyShape(dy, d.month);
    assert DateKey(d) == NatToString(dy) + "-" + Pad2(d.month) + "-" + Pad2(d.day);
  }

  /** Two month keys one of which starts the other followed by more text
      name the same year and month. */
  lemma MonthKeyPrefix(y: nat, m: int, y2: nat, m2: int, rest: string)
    requires 1 <= m <= 12 && 1 <= m2 <= 12
    requires StartsWith(MonthKey(y2, m2) + rest, MonthKey(y, m))
    ensures y == y2 && m == m2
  {
    MonthKeyShape(y, m);
    MonthKeyShape(y2, m2);
    var whole := MonthKey(y2, m2) + rest;
    var tail := whole[|MonthKey(y, m)|..];
    assert whole == MonthKey(y, m) + tail;
    NumeralKeys(NatToString(y), Pad2(m), tail, NatToString(y2), Pad2(m2), rest);
    NatToStringInjective(y, y2);
    Pad2Injective(m, m2);
  }

  lemma NumeralKeys(ny: string, pm: string, tail: string, nz: string, pn: string, rest: string)
    requires AllDigits(ny) && AllDigits(nz) && |pm| == 2 && |pn| == 2
    requires ny + "-" + pm + tail == nz + "-" + pn + rest
    ensures ny == nz && pm == pn
  {
    var x := "-" + pm + tail;
    var z := "-" + pn + rest;
    assert ny + "-" + pm + tail == ny + x;
    assert nz + "-" + pn + rest == nz + z;
    NumeralPrefix(ny, x, nz, z);
    assert pm == x[1..3] && pn == z[1..3];
  }

  lemma Pad2Injective(m: nat, n: nat)
    requires Pad2(m) == Pad2(n)
    ensures m == n
  {
    Pad2Numeral(m);
    Pad2Numeral(n);
  }

  /** For years from 0 on, the month view of (year, month) takes exactly the
      ISO dates of that month: a date string `YYYY-MM-DD` starts with the key
      if and only if its year and month are the selected ones. */
  lemma MonthKeySelectsMonth(year: nat, month: int, d: Date)
    requires 1 <= month <= 12 && ValidDate(d) && d.year >= 0
    ensures StartsWith(DateKey(d), MonthKey(year, month)) <==> d.year == year && d.month == month
  {
    DateKeySplit(d);
    if StartsWith(DateKey(d), MonthKey(year, month)) {
      MonthKeyPrefix(year, month, d.year, d.month, "-" + Pad2(d.day));
    }
  }
}
