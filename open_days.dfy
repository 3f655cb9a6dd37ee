/**
 * The open-days routes (backend/src/routes/openDays.js): a table keyed by
 * date that records whether the business opens that day. A date with no
 * record counts as open. The table is held in ascending date order, which
 * is the order of its primary key; dates are text of the `YYYY-MM-DD` shape,
 * so the text order is the calendar order (Dates.LessIsChronological).
 */
module OpenDays {
  import opened Common
  import opened Text
  import opened Dates

  datatype DayRow = DayRow(date: string, isOpen: bool)

  datatype DayError = BadDate | NotBoolean | NoDates | NoRecord

  function StatusCode(e: DayError): int
  {
    match e
    case NoRecord => 404
    case _ => 400
  }

  /** Dates strictly ascend: sorted and each date recorded once. */
  ghost predicate DatesAscending(rows: seq<DayRow>)
  {
    forall i, j :: 0 <= i < j < |rows| ==> Less(rows[i].date, rows[j].date)
  }

  /** The table as a map from date to flag. */
  function AsMap(rows: seq<DayRow>): map<string, bool>
  {
    if rows == [] then map[] else AsMap(rows[1..])[rows[0].date := rows[0].isOpen]
  }

  lemma {:induction false} AsMapKeys(rows: seq<DayRow>)
    ensures forall d :: d in AsMap(rows) <==> exists x :: x in rows && x.date == d
  {
    if rows != [] {
      AsMapKeys(rows[1..]);
      forall d | d in AsMap(rows) ensures exists x :: x in rows && x.date == d {
        if d != rows[0].date {
          assert d in AsMap(rows[1..]);
          var x :| x in rows[1..] && x.date == d;
          assert x in rows;
        }
      }
    }
  }

  // ---------------------------------------------------------------------
  // GET /api/open-days/:date
  // ---------------------------------------------------------------------

  /** A malformed date answers 400; an absent one is open; otherwise the stored flag. */
  function Lookup(days: map<string, bool>, date: string): Result<bool, DayError>
  {
    if !IsDateShape(date) then Failure(BadDate)
    else if date in days then Success(days[date])
    else Success(true)
  }

  /** With dates recorded once, the map view holds each row's own flag. */
  lemma {:induction false} AsMapValue(rows: seq<DayRow>, k: int)
    requires DatesAscending(rows)
    requires 0 <= k < |rows|
    ensures rows[k].date in AsMap(rows) && AsMap(rows)[rows[k].date] == rows[k].isOpen
  {
    if k > 0 {
      assert rows[1..][k - 1] == rows[k];
      AsMapValue(rows[1..], k - 1);
      if rows[0].date == rows[k].date {
        LessIrreflexive(rows[0].date);
        assert false;
      }
    }
  }

  /**
   * The lookup of a stored table: 400 exactly for a malformed date, the
   * stored flag for a recorded date, and open for a date with no record.
   */
  lemma LookupFindsRow(rows: seq<DayRow>, date: string)
    requires DatesAscending(rows)
    ensures Lookup(AsMap(rows), date) == Failure(BadDate) <==> !IsDateShape(date)
    ensures IsDateShape(date) && (forall x :: x in rows ==> x.date != date) ==> Lookup(AsMap(rows), date) == Success(true)
    ensures forall k :: 0 <= k < |rows| && rows[k].date == date && IsDateShape(date) ==>
      Lookup(AsMap(rows), date) == Success(rows[k].isOpen)
  {
    AsMapKeys(rows);
    forall k | 0 <= k < |rows| && rows[k].date == date && IsDateShape(date)
      ensures Lookup(AsMap(rows), date) == Success(rows[k].isOpen)
    {
      AsMapValue(rows, k);
    }
  }

  // ---------------------------------------------------------------------
  // PUT /api/open-days/:date
  // ---------------------------------------------------------------------

  /** The upsert: a new row for a new date, the flag overwritten for a stored one. */
  function Upsert(rows: seq<DayRow>, row: DayRow): (r: seq<DayRow>)
    requires DatesAscending(rows)
    ensures DatesAscending(r)
    ensures forall x :: x in r ==> x in rows || x == row
  {
    if rows == [] then [row]
    else if rows[0].date == row.date then
      [row] + rows[1..]
    else if Less(row.date, rows[0].date) then
      assert forall j :: 0 < j < |rows| ==> Less(row.date, rows[j].date) by {
        forall j | 0 < j < |rows| ensures Less(row.date, rows[j].date) {
          LessTransitive(row.date, rows[0].date, rows[j].date);
        }
      }
      [row] + rows
    else
      LessTotal(row.date, rows[0].date);
      var rest := Upsert(rows[1..], row);
      assert forall x :: x in rest ==> Less(rows[0].date, x.date) by {
        forall x | x in rest ensures Less(rows[0].date, x.date) {
          if x != row {
            var j :| 0 <= j < |rows[1..]| && rows[1..][j] == x;
            assert rows[j + 1] == x;
          }
        }
      }
      [rows[0]] + rest
  }

  /** Upserting sets the flag of one date and leaves the others. */
  lemma {:induction false} UpsertAsMap(rows: seq<DayRow>, row: DayRow)
    requires DatesAscending(rows)
    ensures AsMap(Upsert(rows, row)) == AsMap(rows)[row.date := row.isOpen]
  {
    if rows == [] {
    } else if rows[0].date == row.date {
      assert ([row] + rows[1..])[1..] == rows[1..];
    } else if Less(row.date, rows[0].date) {
      assert ([row] + rows)[1..] == rows;
    } else {
      var rest := Upsert(rows[1..], row);
      UpsertAsMap(rows[1..], row);
      assert Upsert(rows, row)[1..] == rest;
    }
  }

  /** A malformed date or a non-boolean flag answers 400 and changes nothing. */
  function PutDay(rows: seq<DayRow>, date: string, isOpen: Option<bool>): (Result<DayRow, DayError>, seq<DayRow>)
    requires DatesAscending(rows)
  {
    if !IsDateShape(date) then (Failure(BadDate), rows)
    else if isOpen.None? then (Failure(NotBoolean), rows)
    else (Success(DayRow(date, isOpen.value)), Upsert(rows, DayRow(date, isOpen.value)))
  }

  /**
   * After a PUT the lookup of its date gives the flag sent and every other
   * date looks up as before; a rejected PUT changes nothing.
   */
  lemma PutThenLookup(rows: seq<DayRow>, date: string, isOpen: Option<bool>)
    requires DatesAscending(rows)
    ensures var (r, rows') := PutDay(rows, date, isOpen);
      && (r == Failure(BadDate) <==> !IsDateShape(date))
      && (r == Failure(NotBoolean) <==> IsDateShape(date) && isOpen.None?)
      && (r.Failure? ==> rows' == rows)
      && (r.Success? ==> Lookup(AsMap(rows'), date) == Success(isOpen.value) && r.value == DayRow(date, isOpen.value))
      && (forall d :: d != date ==> Lookup(AsMap(rows'), d) == Lookup(AsMap(rows), d))
  {
    if IsDateShape(date) && isOpen.Some? {
      UpsertAsMap(rows, DayRow(date, isOpen.value));
    }
  }

  lemma {:induction false} UpsertIdempotent(rows: seq<DayRow>, row: DayRow)
    requires DatesAscending(rows)
    ensures Upsert(Upsert(rows, row), row) == Upsert(rows, row)
  {
    if rows != [] && rows[0].date != row.date && !Less(row.date, rows[0].date) {
      UpsertIdempotent(rows[1..], row);
      var r := Upsert(rows, row);
      assert r[0] == rows[0] && r[1..] == Upsert(rows[1..], row);
    }
  }

  /** Repeating a PUT changes nothing more. */
  lemma PutIdempotent(rows: seq<DayRow>, date: string, isOpen: Option<bool>)
    requires DatesAscending(rows)
    ensures PutDay(PutDay(rows, date, isOpen).1, date, isOpen) == PutDay(rows, date, isOpen)
  {
    if IsDateShape(date) && isOpen.Some? {
      UpsertIdempotent(rows, DayRow(date, isOpen.value));
    }
  }

  // ---------------------------------------------------------------------
  // DELETE /api/open-days/:date
  // ---------------------------------------------------------------------

  /** The table without the row of this date. */
  function Remove(rows: seq<DayRow>, date: string): (r: seq<DayRow>)
    ensures forall x :: x in r <==> x in rows && x.date != date
  {
    if rows == [] then []
    else if rows[0].date == date then Remove(rows[1..], date)
    else [rows[0]] + Remove(rows[1..], date)
  }

  /** Removing drops one date from the map view and leaves the others. */
  lemma {:induction false} RemoveAsMap(rows: seq<DayRow>, date: string)
    ensures AsMap(Remove(rows, date)) == AsMap(rows) - {date}
  {
    if rows != [] {
      RemoveAsMap(rows[1..], date);
      if rows[0].date == date {
        DropUpdated(AsMap(rows[1..]), date, rows[0].isOpen);
      } else {
        var r := Remove(rows, date);
        assert r[0] == rows[0] && r[1..] == Remove(rows[1..], date);
        DropOther(AsMap(rows[1..]), rows[0].date, rows[0].isOpen, date);
      }
    }
  }

  lemma DropUpdated<K(!new), V(!new)>(m: map<K, V>, k: K, v: V)
    ensures m[k := v] - {k} == m - {k}
  {
  }

  lemma DropOther<K(!new), V(!new)>(m: map<K, V>, k: K, v: V, d: K)
    requires k != d
    ensures m[k := v] - {d} == (m - {d})[k := v]
  {
  }

  lemma {:induction false} RemoveAscending(rows: seq<DayRow>, date: string)
    requires DatesAscending(rows)
    ensures DatesAscending(Remove(rows, date))
  {
    if rows != [] {
      RemoveAscending(rows[1..], date);
      var rest := Remove(rows[1..], date);
      if rows[0].date != date {
        forall x | x in rest ensures Less(rows[0].date, x.date) {
          var j :| 0 <= j < |rows[1..]| && rows[1..][j] == x;
          assert rows[j + 1] == x;
        }
      }
    }
  }

  /** A malformed date answers 400; a date without a record answers 404. */
  function DeleteDay(rows: seq<DayRow>, date: string): (Outcome<DayError>, seq<DayRow>)
  {
    if !IsDateShape(date) then (Fail(BadDate), rows)
    else if date !in AsMap(rows) then (Fail(NoRecord), rows)
    else (Pass, Remove(rows, date))
  }

  /**
   * A rejected DELETE changes nothing; a successful one removes the record,
   * so the date looks up as open again, and every other date is untouched.
   */
  lemma DeleteRevertsToDefault(rows: seq<DayRow>, date: string)
    ensures var (r, rows') := DeleteDay(rows, date);
      && (r == Fail(BadDate) <==> !IsDateShape(date))
      && (r == Fail(NoRecord) <==> IsDateShape(date) && !exists x :: x in rows && x.date == date)
      && (r.Fail? ==> rows' == rows)
      && (r.Pass? ==> Lookup(AsMap(rows'), date) == Success(true) && (forall x :: x in rows' ==> x.date != date))
      && (forall d :: d != date ==> Lookup(AsMap(rows'), d) == Lookup(AsMap(rows), d))
  {
    AsMapKeys(rows);
    RemoveAsMap(rows, date);
  }

  // ---------------------------------------------------------------------
  // POST /api/open-days
  // ---------------------------------------------------------------------

  /** One element of the `dates` array. */
  datatype BulkEntry = BulkEntry(date: string, isOpen: bool)

  /** Upserts each shape-valid entry in turn and skips the others. */
  function ApplyAll(rows: seq<DayRow>, entries: seq<BulkEntry>): (r: seq<DayRow>)
    requires DatesAscending(rows)
    ensures DatesAscending(r)
  {
    if entries == [] then rows
    else
      var prev := ApplyAll(rows, entries[..|entries| - 1]);
      var e := entries[|entries| - 1];
      if IsDateShape(e.date) then Upsert(prev, DayRow(e.date, e.isOpen)) else prev
  }

  /** The rows the upserts return, in request order. */
  function Upserted(entries: seq<BulkEntry>): seq<DayRow>
  {
    if entries == [] then []
    else
      var e := entries[|entries| - 1];
      Upserted(entries[..|entries| - 1]) + (if IsDateShape(e.date) then [DayRow(e.date, e.isOpen)] else [])
  }

  /** A missing, non-array or empty `dates` answers 400. */
  function PutDays(rows: seq<DayRow>, dates: Option<seq<BulkEntry>>): (Result<seq<DayRow>, DayError>, seq<DayRow>)
    requires DatesAscending(rows)
  {
    if dates.None? || dates.value == [] then (Failure(NoDates), rows)
    else (Success(Upserted(dates.value)), ApplyAll(rows, dates.value))
  }

  /** The flag the last shape-valid entry for `d` carries, if any entry carries one. */
  function LastFor(entries: seq<BulkEntry>, d: string): Option<bool>
  {
    if entries == [] then None
    else
      var e := entries[|entries| - 1];
      if e.date == d && IsDateShape(d) then Some(e.isOpen) else LastFor(entries[..|entries| - 1], d)
  }

  /**
   * After a bulk upsert each date looks up as the last valid entry for it
   * says, and as before when no valid entry names it.
   */
  lemma {:induction false} LaterEntryWins(rows: seq<DayRow>, entries: seq<BulkEntry>, d: string)
    requires DatesAscending(rows)
    ensures Lookup(AsMap(ApplyAll(rows, entries)), d)
         == if LastFor(entries, d).Some? then Success(LastFor(entries, d).value) else Lookup(AsMap(rows), d)
  {
    if entries != [] {
      LaterEntryWins(rows, entries[..|entries| - 1], d);
      var e := entries[|entries| - 1];
      if IsDateShape(e.date) {
        UpsertAsMap(ApplyAll(rows, entries[..|entries| - 1]), DayRow(e.date, e.isOpen));
      }
    }
  }

  /** Indices of the shape-valid entries. */
  function ValidIndices(entries: seq<BulkEntry>): set<int>
  {
    set i | 0 <= i < |entries| && IsDateShape(entries[i].date)
  }

  /** The response lists one row per shape-valid entry, each with a valid date. */
  lemma {:induction false} UpsertedCount(entries: seq<BulkEntry>)
    ensures |Upserted(entries)| == |ValidIndices(entries)|
    ensures forall x :: x in Upserted(entries) ==> IsDateShape(x.date)
  {
    if entries != [] {
      var n := |entries| - 1;
      var init := entries[..n];
      UpsertedCount(init);
      if IsDateShape(entries[n].date) {
        assert ValidIndices(entries) == ValidIndices(init) + {n};
      } else {
        assert ValidIndices(entries) == ValidIndices(init);
      }
    }
  }

  // ---------------------------------------------------------------------
  // GET /api/open-days
  // ---------------------------------------------------------------------

  /** A query parameter as JavaScript tests it: an empty string is no bound. */
  function Bound(param: Option<string>): Option<string>
  {
    if param == Some("") then None else param
  }

  /** The range filter: both bounds, one of them or none, each inclusive, compared as text. */
  predicate InRange(date: string, start: Option<string>, end: Option<string>)
  {
    && (Bound(start).None? || !Less(date, Bound(start).value))
    && (Bound(end).None? || !Less(Bound(end).value, date))
  }

  /** For dates of the `YYYY-MM-DD` shape the range test is the calendar one, bounds included. */
  lemma InRangeIsChronological(date: string, start: Option<string>, end: Option<string>)
    requires IsDateShape(date)
    requires Bound(start).Some? ==> IsDateShape(Bound(start).value)
    requires Bound(end).Some? ==> IsDateShape(Bound(end).value)
    ensures InRange(date, start, end) <==>
      && (Bound(start).None? || DayNumber(Bound(start).value) <= DayNumber(date))
      && (Bound(end).None? || DayNumber(date) <= DayNumber(Bound(end).value))
  {
    if Bound(start).Some? {
      LessIsChronological(date, Bound(start).value);
    }
    if Bound(end).Some? {
      LessIsChronological(Bound(end).value, date);
    }
  }

  /** GET /api/open-days: the rows in range, latest date first. */
  function Listing(rows: seq<DayRow>, start: Option<string>, end: Option<string>): (r: seq<DayRow>)
    ensures forall x :: x in r <==> x in rows && InRange(x.date, start, end)
  {
    if rows == [] then []
    else Listing(rows[1..], start, end) + (if InRange(rows[0].date, start, end) then [rows[0]] else [])
  }

  /** The listing is in strictly descending date order. */
  lemma {:induction false} ListingDescending(rows: seq<DayRow>, start: Option<string>, end: Option<string>)
    requires DatesAscending(rows)
    ensures forall i, j :: 0 <= i < j < |Listing(rows, start, end)| ==>
              Less(Listing(rows, start, end)[j].date, Listing(rows, start, end)[i].date)
  {
    if rows != [] {
      ListingDescending(rows[1..], start, end);
      var rest := Listing(rows[1..], start, end);
      var l := Listing(rows, start, end);
      forall i, j | 0 <= i < j < |l| ensures Less(l[j].date, l[i].date) {
        assert l[i] == rest[i] && rest[i] in rest;
        if j < |rest| {
          assert l[j] == rest[j];
        } else {
          var k :| 0 <= k < |rows[1..]| && rows[1..][k] == rest[i];
          assert rows[k + 1] == rest[i] && l[j] == rows[0];
          assert Less(rows[0].date, rows[k + 1].date);
        }
      }
    }
  }

  // ---------------------------------------------------------------------
  // The table
  // ---------------------------------------------------------------------

  /** The `open_days` table. */
  class OpenDayTable {
    var rows: seq<DayRow>

    ghost predicate Valid()
      reads this
    {
      DatesAscending(rows)
    }

    constructor ()
      ensures Valid() && rows == []
    {
      rows := [];
    }

    /** GET /api/open-days/:date. */
    function Get(date: string): Result<bool, DayError>
      reads this
    {
      Lookup(AsMap(rows), date)
    }

    /** PUT /api/open-days/:date. */
    method Put(date: string, isOpen: Option<bool>) returns (r: Result<DayRow, DayError>)
      requires Valid()
      modifies this
      ensures Valid()
      ensures (r, rows) == PutDay(old(rows), date, isOpen)
    {
      if !IsDateShape(date) {
        return Failure(BadDate);
      }
      if isOpen.None? {
        return Failure(NotBoolean);
      }
      var row := DayRow(date, isOpen.value);
      rows := Upsert(rows, row);
      r := Success(row);
    }

    /** POST /api/open-days: one upsert per shape-valid entry, in order. */
    method PutMany(dates: Option<seq<BulkEntry>>) returns (r: Result<seq<DayRow>, DayError>)
      requires Valid()
      modifies this
      ensures Valid()
      ensures (r, rows) == PutDays(old(rows), dates)
    {
      if dates.None? || dates.value == [] {
        return Failure(NoDates);
      }
      var entries := dates.value;
      ghost var original := rows;
      var results: seq<DayRow> := [];
      var i := 0;
      while i < |entries|
        invariant 0 <= i <= |entries|
        invariant DatesAscending(rows)
        invariant rows == ApplyAll(original, entries[..i])
        invariant results == Upserted(entries[..i])
      {
        var e := entries[i];
        assert entries[..i + 1][..i] == entries[..i];
        if IsDateShape(e.date) {
          var row := DayRow(e.date, e.isOpen);
          rows := Upsert(rows, row);
          results := results + [row];
        }
        i := i + 1;
      }
      assert entries[..i] == entries;
      r := Success(results);
    }

    /** DELETE /api/open-days/:date. */
    method Delete(date: string) returns (r: Outcome<DayError>)
      requires Valid()
      modifies this
      ensures Valid()
      ensures (r, rows) == DeleteDay(old(rows), date)
    {
      if !IsDateShape(date) {
        return Fail(BadDate);
      }
      if date !in AsMap(rows) {
        return Fail(NoRecord);
      }
      RemoveAscending(rows, date);
      rows := Remove(rows, date);
      r := Pass;
    }

    /** GET /api/open-days. */
    function List(start: Option<string>, end: Option<string>): seq<DayRow>
      reads this
    {
      Listing(rows, start, end)
    }
  }
}
