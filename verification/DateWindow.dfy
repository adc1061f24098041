/** The date window of an export: rows sorted by date, those before the start skipped, and the loop left at the first after the end. */
module DateWindow {
  import opened Options

  /** A row with its date as parsed, None when it does not parse. */
  datatype Row = Row(date: Option<int>, text: string)

  datatype Bounds = Bounds(start: Option<int>, end: Option<int>)

  predicate TooEarly(row: Row, bounds: Bounds) {
    row.date.Some? && bounds.start.Some? && row.date.value < bounds.start.value
  }

  predicate TooLate(row: Row, bounds: Bounds) {
    row.date.Some? && bounds.end.Some? && row.date.value > bounds.end.value
  }

  /** Both bounds belong to the window. */
  predicate Inside(row: Row, bounds: Bounds) {
    row.date.Some? && !TooEarly(row, bounds) && !TooLate(row, bounds)
  }

  /** Dated from the start on, if there is one, and up to the end, if there is one, both included. */
  predicate InWindow(row: Row, bounds: Bounds) {
    && row.date.Some?
    && (bounds.start.Some? ==> bounds.start.value <= row.date.value)
    && (bounds.end.Some? ==> row.date.value <= bounds.end.value)
  }

  predicate Parses(rows: seq<Row>) {
    forall row | row in rows :: row.date.Some?
  }

  predicate ByDate(rows: seq<Row>) {
    forall i, j | 0 <= i < j < |rows| && rows[i].date.Some? && rows[j].date.Some? :: rows[i].date.value <= rows[j].date.value
  }

  /** A plain filter. */
  function Window(rows: seq<Row>, bounds: Bounds): seq<Row> {
    if rows == [] then []
    else
      var last := rows[|rows| - 1];
      Window(rows[..|rows| - 1], bounds) + if Inside(last, bounds) then [last] else []
  }

  lemma {:induction false} WindowCounts(rows: seq<Row>, bounds: Bounds, row: Row)
    ensures multiset(Window(rows, bounds))[row] == if Inside(row, bounds) then multiset(rows)[row] else 0
  {
    if rows != [] {
      WindowCounts(rows[..|rows| - 1], bounds, row);
      assert rows == rows[..|rows| - 1] + [rows[|rows| - 1]];
    }
  }

  lemma KeptAreInWindow(rows: seq<Row>, sorted: seq<Row>, bounds: Bounds)
    requires multiset(sorted) == multiset(rows)
    ensures forall row ::
              multiset(Window(sorted, bounds))[row] == if InWindow(row, bounds) then multiset(rows)[row] else 0
  {
    forall row ensures multiset(Window(sorted, bounds))[row] == if InWindow(row, bounds) then multiset(rows)[row] else 0 {
      WindowCounts(sorted, bounds, row);
    }
  }

  lemma SameWindow(a: seq<Row>, b: seq<Row>, bounds: Bounds)
    requires multiset(a) == multiset(b)
    ensures multiset(Window(a, bounds)) == multiset(Window(b, bounds))
  {
    forall row ensures multiset(Window(a, bounds))[row] == multiset(Window(b, bounds))[row] {
      WindowCounts(a, bounds, row);
      WindowCounts(b, bounds, row);
    }
  }

  lemma {:induction false} WindowByDate(rows: seq<Row>, bounds: Bounds)
    requires ByDate(rows) && Parses(rows)
    ensures ByDate(Window(rows, bounds))
    ensures forall row | row in Window(rows, bounds) :: row in rows
  {
    if rows != [] {
      var n := |rows| - 1;
      WindowByDate(rows[..n], bounds);
      forall row | row in Window(rows[..n], bounds) ensures row.date.value <= rows[n].date.value {
        assert row in rows[..n];
      }
    }
  }

  lemma {:induction false} TailOutside(rows: seq<Row>, bounds: Bounds, n: nat)
    requires ByDate(rows) && Parses(rows) && n < |rows| && TooLate(rows[n], bounds)
    ensures Window(rows, bounds) == Window(rows[..n], bounds)
  {
    if n < |rows| - 1 {
      TailOutside(rows[..|rows| - 1], bounds, n);
      assert rows[..|rows| - 1][..n] == rows[..n];
      assert rows[n].date.value <= rows[|rows| - 1].date.value;
    }
  }

  /** The row at which the loop is left: past the end, and not skipped as too early before. */
  predicate EndsLoop(row: Row, bounds: Bounds) {
    TooLate(row, bounds) && !TooEarly(row, bounds)
  }

  /** The loop gets as far as row n: everything before it parses and does not end it. */
  predicate Reaches(rows: seq<Row>, bounds: Bounds, n: int) {
    0 <= n <= |rows| && forall k | 0 <= k < n :: rows[k].date.Some? && !EndsLoop(rows[k], bounds)
  }

  /** It leaves there, at the first row past the end or behind the last row. */
  predicate LeavesAt(rows: seq<Row>, bounds: Bounds, n: int) {
    Reaches(rows, bounds, n) && (n < |rows| ==> EndsLoop(rows[n], bounds))
  }

  predicate FailsAt(rows: seq<Row>, bounds: Bounds, n: int) {
    0 <= n < |rows| && Reaches(rows, bounds, n) && rows[n].date.None?
  }

  lemma SameMembers(a: seq<Row>, b: seq<Row>)
    requires multiset(a) == multiset(b)
    ensures Parses(a) ==> Parses(b)
  {
    forall row | row in b ensures row in a {
      assert row in multiset(b);
    }
  }

  /**
    Whatever order the sort gives to rows of one date, the result is the plain
    filter of the rows, in order of date. It fails exactly when a date that does not
    parse comes before the row that ends the loop; where the sort puts such a row is
    not determined, and rows behind that one are left out unseen.
   */
  method GetRows(rows: seq<Row>, sorted: seq<Row>, bounds: Bounds) returns (kept: Option<seq<Row>>)
    requires multiset(sorted) == multiset(rows) && (Parses(rows) ==> ByDate(sorted))
    ensures Parses(rows) ==> kept.Some? && forall row ::
              multiset(kept.value)[row] == if InWindow(row, bounds) then multiset(rows)[row] else 0
    ensures Parses(rows) ==>
              && kept.Some?
              && multiset(kept.value) == multiset(Window(rows, bounds))
              && ByDate(kept.value)
    ensures !Parses(rows) && bounds.end.None? ==> kept.None?
    ensures kept.None? <==> exists n :: FailsAt(sorted, bounds, n)
    ensures kept.Some? ==> exists n :: LeavesAt(sorted, bounds, n) && kept.value == Window(sorted[..n], bounds)
  {
    SameMembers(rows, sorted);
    SameMembers(sorted, rows);
    var rowsToKeep: seq<Row> := [];
    var i := 0;
    while i < |sorted|
      invariant i <= |sorted|
      invariant Reaches(sorted, bounds, i)
      invariant rowsToKeep == Window(sorted[..i], bounds)
    {
      var row := sorted[i];
      assert sorted[..i + 1][..i] == sorted[..i];
      if row.date.None? {
        assert row in sorted && FailsAt(sorted, bounds, i);
        return None;
      }
      i := i + 1;
      if TooEarly(row, bounds) {
        continue;
      }
      if TooLate(row, bounds) {
        assert LeavesAt(sorted, bounds, i - 1);
        assert Parses(rows) ==> Window(sorted, bounds) == rowsToKeep by {
          if Parses(rows) {
            TailOutside(sorted, bounds, i - 1);
          }
        }
        break;
      }
      rowsToKeep := rowsToKeep + [row];
    }
    assert sorted[..|sorted|] == sorted;
    assert Parses(rows) ==> rowsToKeep == Window(sorted, bounds);
    if Parses(rows) {
      SameWindow(rows, sorted, bounds);
      WindowByDate(sorted, bounds);
      KeptAreInWindow(rows, sorted, bounds);
    }
    return Some(rowsToKeep);
  }
}
