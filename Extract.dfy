/**
 * The part of `XlExtract.extract` that works on the values read from a
 * sheet: the scan that finds the used range inside the fixed read window,
 * the range label built from it, and the purge of empty rows from the
 * `XlArray` made of the second read.
 */
module Extract {
  import opened Py
  import opened Cells
  import opened ColumnCodec
  import opened Arrays

  // ---------------------------------------------------------------------
  // The extent scan

  /** Position of the first row `empty_check` accepts, or the number of rows when there is none. */
  function FirstEmpty(raw: seq<seq<Value>>): (e: nat)
    ensures e <= |raw|
    ensures forall k :: 0 <= k < e ==> !EmptyRow(raw[k])
    ensures e < |raw| ==> EmptyRow(raw[e])
  {
    if raw == [] then 0
    else if EmptyRow(raw[0]) then 0
    else 1 + FirstEmpty(raw[1..])
  }

  /**
   * Where the trailing run of empty cells of a row starts: found from the
   * right, independently of the scan's left-to-right search.
   */
  function TrailingStart(row: seq<Value>): (t: nat)
    ensures t <= |row|
    ensures forall j :: t <= j < |row| ==> EmptyCheck(row[j])
    ensures t > 0 ==> !EmptyCheck(row[t - 1])
  {
    if row == [] then 0
    else if EmptyCheck(row[|row| - 1]) then TrailingStart(row[..|row| - 1])
    else |row|
  }

  /** `empty_check(row[j:])` holds exactly from the trailing run on. */
  lemma SuffixEmpty(row: seq<Value>, j: nat)
    requires j <= |row|
    ensures EmptyRow(row[j..]) <==> j >= TrailingStart(row)
  {
    var t := TrailingStart(row);
    if j < t {
      assert row[j..][t - 1 - j] == row[t - 1];
    }
  }

  /** The column counts the scan collects from the first `n` rows. */
  function Widths(raw: seq<seq<Value>>, n: nat): (w: seq<int>)
    requires n <= |raw|
    ensures |w| == n
  {
    seq(n, k requires 0 <= k < n => TrailingStart(raw[k]))
  }

  /** `(col_len, row_len)` once the scan loop is over. */
  datatype Extent = Extent(colLen: int, rowLen: int)

  /**
   * The scan's result: `row_len` is the index of the first empty row (or
   * the index of the LAST row when there is none), `col_len` the largest
   * column count of the rows before it; `max` of no counts is a ValueError.
   */
  function ExtentOf(raw: seq<seq<Value>>): Result<Extent>
  {
    var e := FirstEmpty(raw);
    if e == 0 then Err(ValueError)
    else Ok(Extent(SeqMax(Widths(raw, e)), if e < |raw| then e else |raw| - 1))
  }

  /** The scan loop of `extract`, with its inner `while j in list(range(-1, len(row)))` search. */
  method ScanExtent(raw: seq<seq<Value>>) returns (r: Result<Extent>)
    ensures r == ExtentOf(raw)
  {
    var colLens: seq<int> := [];
    var rowLen := -1;
    var i := 0;
    var stopped := false;
    while i < |raw| && !stopped
      invariant 0 <= i <= |raw|
      invariant forall k :: 0 <= k < i ==> !EmptyRow(raw[k])
      invariant !stopped ==> rowLen == i - 1 && colLens == Widths(raw, i)
      invariant stopped ==> i < |raw| && EmptyRow(raw[i]) && rowLen == i && colLens == Widths(raw, i)
      decreases |raw| - i, !stopped
    {
      var row := raw[i];
      if EmptyRow(row) {
        rowLen := rowLen + 1;
        stopped := true;
      } else {
        rowLen := rowLen + 1;
        var j := CountColumns(row);
        colLens := colLens + [j];
        assert colLens == Widths(raw, i + 1);
        i := i + 1;
      }
    }
    assert i == FirstEmpty(raw);
    if colLens == [] {
      r := Err(ValueError);
    } else {
      r := Ok(Extent(SeqMax(colLens), rowLen));
    }
  }

  /**
   * The inner `while j in list(range(-1, len(row)))` search of the scan: the
   * first `j` from which `empty_check(row[j:])` holds.
   */
  method CountColumns(row: seq<Value>) returns (j: int)
    ensures j == TrailingStart(row)
  {
    j := -1;
    var found := false;
    while -1 <= j < |row| && !found
      invariant -1 <= j <= |row|
      invariant !found ==> forall m :: 0 <= m <= j ==> !EmptyRow(row[m..])
      invariant found ==> 0 <= j && EmptyRow(row[j..]) && forall m :: 0 <= m < j ==> !EmptyRow(row[m..])
      decreases |row| - j, !found
    {
      j := j + 1;
      if EmptyRow(row[j..]) {
        found := true;
      }
    }
    if !found {
      SuffixEmpty(row, |row|);
    }
    SuffixEmpty(row, j);
    if j > 0 {
      SuffixEmpty(row, TrailingStart(row));
    }
    assert j == TrailingStart(row) by {
      if j > TrailingStart(row) {
        SuffixEmpty(row, TrailingStart(row));
      }
    }
  }

  /**
   * What the scan guarantees about the rows: no row before `row_len` is
   * empty, and the row at `row_len` is empty unless the window had no empty
   * row -- then `row_len` is the index of the last row, which is left out.
   */
  lemma ExtentRows(raw: seq<seq<Value>>)
    requires ExtentOf(raw).Ok?
    ensures var x := ExtentOf(raw).value;
      (forall k :: 0 <= k < x.rowLen ==> !EmptyRow(raw[k])) &&
      (FirstEmpty(raw) < |raw| ==> x.rowLen == FirstEmpty(raw) && EmptyRow(raw[x.rowLen])) &&
      (FirstEmpty(raw) == |raw| ==> x.rowLen == |raw| - 1)
  {
  }

  /** A row `empty_check` rejects has data in some cell, so its count is at least 1. */
  lemma TrailingStartPositive(row: seq<Value>)
    requires !EmptyRow(row)
    ensures 1 <= TrailingStart(row) <= |row| && !EmptyCheck(row[TrailingStart(row) - 1])
  {
    SuffixEmpty(row, 0);
    assert row[0..] == row;
  }

  /** The largest count of the first `e` rows: no row has data right of it. */
  lemma WidthsBound(raw: seq<seq<Value>>, e: nat)
    requires 0 < e <= |raw|
    ensures var m := SeqMax(Widths(raw, e));
      forall k, j :: 0 <= k < e && m <= j < |raw[k]| ==> EmptyCheck(raw[k][j])
  {
    var w := Widths(raw, e);
    var m := SeqMax(w);
    forall k, j | 0 <= k < e && m <= j < |raw[k]| ensures EmptyCheck(raw[k][j]) {
      assert w[k] == TrailingStart(raw[k]) <= m;
    }
  }

  /** The largest count of the first `e` rows, each count positive, is attained by data in some row. */
  lemma WidthsAttained(raw: seq<seq<Value>>, e: nat)
    requires 0 < e <= |raw|
    requires forall k :: 0 <= k < e ==> TrailingStart(raw[k]) >= 1
    ensures var m := SeqMax(Widths(raw, e));
      1 <= m && exists k :: 0 <= k < e && m <= |raw[k]| && !EmptyCheck(raw[k][m - 1])
  {
    var w := Widths(raw, e);
    var m := SeqMax(w);
    var k :| 0 <= k < e && w[k] == m;
    assert m == TrailingStart(raw[k]) >= 1;
  }

  /**
   * What the scan guarantees about the columns: `col_len` is at least 1, no
   * scanned row has data right of column `col_len`, and some scanned row
   * has data in column `col_len`.
   */
  lemma ExtentColumns(raw: seq<seq<Value>>)
    requires ExtentOf(raw).Ok?
    ensures var x := ExtentOf(raw).value;
      1 <= x.colLen &&
      (forall k, j :: 0 <= k < FirstEmpty(raw) && x.colLen <= j < |raw[k]| ==> EmptyCheck(raw[k][j])) &&
      (exists k :: 0 <= k < FirstEmpty(raw) && x.colLen <= |raw[k]| && !EmptyCheck(raw[k][x.colLen - 1]))
  {
    var e := FirstEmpty(raw);
    assert ExtentOf(raw).value.colLen == SeqMax(Widths(raw, e));
    WidthsBound(raw, e);
    forall k | 0 <= k < e ensures TrailingStart(raw[k]) >= 1 {
      TrailingStartPositive(raw[k]);
    }
    WidthsAttained(raw, e);
  }

  /**
   * A single empty row ends the scan: with rows 0-2 holding data and row 3
   * empty, `row_len` is 3 whatever follows.
   */
  lemma ScanStopsAtEmptyRow(raw: seq<seq<Value>>)
    requires |raw| >= 4 && EmptyRow(raw[3])
    requires !EmptyRow(raw[0]) && !EmptyRow(raw[1]) && !EmptyRow(raw[2])
    ensures ExtentOf(raw).Ok? && ExtentOf(raw).value.rowLen == 3
  {
    assert raw[1..][0] == raw[1] && raw[1..][1..][0] == raw[2] && raw[1..][1..][1..][0] == raw[3];
  }

  // ---------------------------------------------------------------------
  // The range to read

  /** The bottom-right corner as (column number, row number), clamped to the window. */
  function Corner(x: Extent, maxRow: int, maxCol: int): (c: (int, int))
  {
    if x.colLen < maxCol && x.rowLen < maxRow then (x.colLen, x.rowLen) else (maxCol, maxRow)
  }

  /** `"A1:" + last_cell_location`, with the KeyError of a column number beyond the table. */
  function SheetRange(x: Extent, maxRow: int, maxCol: int): Result<string>
  {
    var c := Corner(x, maxRow, maxCol);
    match ConvertToAlpha(c.0)
    case None => Err(KeyError)
    case Some(last) => Ok("A1:" + last + IntToString(c.1))
  }

  /**
   * The range never reaches beyond the window; inside the window it is the
   * scanned extent itself, and when either dimension reaches the window's
   * edge BOTH are set to the window's size.
   */
  lemma CornerWithinWindow(x: Extent, maxRow: int, maxCol: int)
    ensures Corner(x, maxRow, maxCol).0 <= maxCol && Corner(x, maxRow, maxCol).1 <= maxRow
    ensures x.colLen < maxCol && x.rowLen < maxRow ==> Corner(x, maxRow, maxCol) == (x.colLen, x.rowLen)
    ensures !(x.colLen < maxCol && x.rowLen < maxRow) ==> Corner(x, maxRow, maxCol) == (maxCol, maxRow)
  {
  }

  /** The range label fails only on a corner column outside 1 .. 18954, and names that column. */
  lemma SheetRangeSpec(x: Extent, maxRow: int, maxCol: int)
    ensures var c := Corner(x, maxRow, maxCol);
      SheetRange(x, maxRow, maxCol).Ok? <==> 1 <= c.0 <= 18954
    ensures var c := Corner(x, maxRow, maxCol);
      SheetRange(x, maxRow, maxCol).Ok? ==>
        SheetRange(x, maxRow, maxCol).value == "A1:" + ConvertToAlpha(c.0).value + IntToString(c.1) &&
        ConvertToNum(ConvertToAlpha(c.0).value) == Some(c.0 + Shift(c.0 - 1))
  {
    var c := Corner(x, maxRow, maxCol);
    if 1 <= c.0 <= 18954 {
      DefaultNumOfAlpha(c.0);
    }
  }

  /** With the default window (50000 rows, 100 columns) a 3-column, 10-row extent reads A1:C10. */
  lemma SheetRangeExample()
    ensures SheetRange(Extent(3, 10), 50000, 100) == Ok("A1:C10")
  {
    assert Corner(Extent(3, 10), 50000, 100) == (3, 10);
    assert ConvertToAlpha(3) == Some("C");
    assert IntToString(10) == "10";
    assert "A1:" + "C" + "10" == "A1:C10";
  }

  // ---------------------------------------------------------------------
  // The purge of empty rows

  /** `list.remove(x)`: drop the first element equal to `x`. */
  function RemoveFirst(s: seq<seq<Value>>, x: seq<Value>): (r: seq<seq<Value>>)
    requires x in s
    ensures |r| == |s| - 1
  {
    var p := IndexOf(s, x);
    s[..p] + s[p + 1..]
  }

  /**
   * `for row in data: if empty_check(row): data.remove(row)` from iterator
   * position `i` on: the list iterator reads `data[i]` of the CURRENT list, so
   * the row after a removed one is never looked at.
   */
  function PurgeFrom(data: seq<seq<Value>>, i: nat): seq<seq<Value>>
    decreases |data| + 1 - i
  {
    if i >= |data| then data
    else if EmptyRow(data[i]) then PurgeFrom(RemoveFirst(data, data[i]), i + 1)
    else PurgeFrom(data, i + 1)
  }

  /** The rows of `s` that hold data, in order. */
  function NonEmptyRows(s: seq<seq<Value>>): (r: seq<seq<Value>>)
    ensures |r| <= |s|
  {
    if s == [] then [] else (if EmptyRow(s[0]) then [] else [s[0]]) + NonEmptyRows(s[1..])
  }

  lemma {:induction false} NonEmptyRowsConcat(a: seq<seq<Value>>, b: seq<seq<Value>>)
    ensures NonEmptyRows(a + b) == NonEmptyRows(a) + NonEmptyRows(b)
    decreases |a|
  {
    if a == [] {
      assert a + b == b;
    } else {
      assert (a + b)[0] == a[0] && (a + b)[1..] == a[1..] + b;
      NonEmptyRowsConcat(a[1..], b);
    }
  }

  /** Removing an empty row does not change the rows that hold data. */
  lemma RemoveEmptyRowKeeps(s: seq<seq<Value>>, p: nat)
    requires p < |s| && EmptyRow(s[p])
    ensures NonEmptyRows(s[..p] + s[p + 1..]) == NonEmptyRows(s)
  {
    var front, back := s[..p], s[p + 1..];
    var mid := [s[p]] + back;
    assert s == front + mid;
    NonEmptyRowsConcat(front, mid);
    assert mid[0] == s[p] && mid[1..] == back;
    assert NonEmptyRows(mid) == NonEmptyRows(back);
    NonEmptyRowsConcat(front, back);
  }

  /** The purge keeps every row that holds data, in the same order. */
  lemma {:induction false} PurgeKeepsData(data: seq<seq<Value>>, i: nat)
    ensures NonEmptyRows(PurgeFrom(data, i)) == NonEmptyRows(data)
    decreases |data| + 1 - i
  {
    if i < |data| {
      if EmptyRow(data[i]) {
        var rest := RemoveFirst(data, data[i]);
        assert PurgeFrom(data, i) == PurgeFrom(rest, i + 1);
        RemoveEmptyRowKeeps(data, IndexOf(data, data[i]));
        PurgeKeepsData(rest, i + 1);
      } else {
        PurgeKeepsData(data, i + 1);
      }
    }
  }

  /** Removing one row takes exactly one copy of it out of the multiset of rows. */
  lemma RemoveFirstMultiset(s: seq<seq<Value>>, x: seq<Value>)
    requires x in s
    ensures multiset(RemoveFirst(s, x)) == multiset(s) - multiset{x}
    ensures multiset(s)[x] > 0
  {
    var p := IndexOf(s, x);
    assert s == s[..p] + [x] + s[p + 1..];
  }

  /** The purge only ever removes rows, and every row it removes is empty. */
  lemma {:induction false} PurgeRemovesOnlyEmpty(data: seq<seq<Value>>, i: nat)
    ensures multiset(PurgeFrom(data, i)) <= multiset(data)
    ensures forall x :: multiset(PurgeFrom(data, i))[x] < multiset(data)[x] ==> EmptyRow(x)
    decreases |data| + 1 - i
  {
    if i < |data| {
      if EmptyRow(data[i]) {
        var rest := RemoveFirst(data, data[i]);
        var out := PurgeFrom(rest, i + 1);
        assert PurgeFrom(data, i) == out;
        RemoveFirstMultiset(data, data[i]);
        PurgeRemovesOnlyEmpty(rest, i + 1);
        forall x | multiset(out)[x] < multiset(data)[x] ensures EmptyRow(x) {
          if x != data[i] {
            assert multiset(rest)[x] == multiset(data)[x];
          }
        }
      } else {
        PurgeRemovesOnlyEmpty(data, i + 1);
      }
    }
  }

  /** Two empty rows in a row: the second is skipped, so [E, E, X] becomes [E, X]. */
  lemma PurgeSkipsExample(empty: seq<Value>, full: seq<Value>)
    requires EmptyRow(empty) && !EmptyRow(full)
    ensures PurgeFrom([empty, empty, full], 0) == [empty, full]
  {
    var d := [empty, empty, full];
    assert IndexOf(d, d[0]) == 0;
    assert RemoveFirst(d, d[0]) == [empty, full];
    assert PurgeFrom([empty, full], 1) == [empty, full];
  }

  /** The purge either leaves the rows as they are or makes the list shorter. */
  lemma {:induction false} PurgeShortens(data: seq<seq<Value>>, i: nat)
    ensures PurgeFrom(data, i) == data || |PurgeFrom(data, i)| < |data|
    decreases |data| + 1 - i
  {
    if i < |data| {
      if EmptyRow(data[i]) {
        PurgeShortens(RemoveFirst(data, data[i]), i + 1);
      } else {
        PurgeShortens(data, i + 1);
      }
    }
  }

  /**
   * The purge on the array built from the second read: only `data` changes;
   * `len` and `range` still describe the rows as read, so a consistent array
   * stays consistent exactly when no row was removed.
   */
  method PurgeEmptyRows(a: XlArray)
    modifies a
    ensures a.data == PurgeFrom(old(a.data), 0)
    ensures a.State() == old(a.State()).(data := a.data)
    ensures old(a.Valid()) ==> (a.Valid() <==> a.data == old(a.data))
  {
    PurgeShortens(a.data, 0);
    var i := 0;
    while i < |a.data|
      invariant i <= |a.data| + 1
      invariant PurgeFrom(a.data, i) == PurgeFrom(old(a.data), 0)
      invariant a.State() == old(a.State()).(data := a.data)
      decreases |a.data| + 1 - i
    {
      var row := a.data[i];
      if EmptyRow(row) {
        a.data := RemoveFirst(a.data, row);
      }
      i := i + 1;
    }
  }
}
