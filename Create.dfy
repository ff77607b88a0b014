/**
 * The decisions `XlCreate.write` takes before each call into the workbook
 * writer: the destination columns and their offsets into the rows, what is
 * written for each body cell (the date-column rule), and the width given
 * to each column.
 */
module Create {
  import opened Py
  import opened Cells
  import opened ColumnCodec

  // ---------------------------------------------------------------------
  // Destination columns and offsets

  /** `all_columns_xl` and `all_columns_py`. */
  datatype Columns = Columns(xl: seq<string>, py: map<string, int>)

  /** The labels of columns `first .. last`, or the KeyError of a number beyond the table. */
  function LabelsBetween(first: int, last: int): (r: Result<seq<string>>)
    ensures r.Ok? ==> |r.value| == (if last < first then 0 else last - first + 1)
    ensures r.Ok? ==> forall i :: 0 <= i < |r.value| ==> ConvertToAlpha(first + i) == Some(r.value[i])
    ensures r.Err? <==> first <= last && (first < 1 || last > 18954)
    ensures r.Err? ==> r.error == KeyError
    decreases last - first
  {
    if last < first then Ok([])
    else
      match ConvertToAlpha(first)
      case None => Err(KeyError)
      case Some(l) =>
        match LabelsBetween(first + 1, last)
        case Err(e) => Err(e)
        case Ok(rest) => Ok([l] + rest)
  }

  /** `convert_to_num[col] - convert_to_num[all_columns_xl[0]]`: where `write` looks for column `col` in a row. */
  function OffsetOf(xl: seq<string>, col: string): int
    requires xl != [] && ConvertToNum(col).Some? && ConvertToNum(xl[0]).Some?
  {
    ConvertToNum(col).value - ConvertToNum(xl[0]).value
  }

  /** The loop building `all_columns_xl` for columns `col_num .. last_col_num`. */
  method DestinationLabels(colNum: int, lastColNum: int) returns (r: Result<seq<string>>)
    ensures r == LabelsBetween(colNum, lastColNum)
  {
    var xl: seq<string> := [];
    var k := colNum;
    while k < lastColNum + 1
      invariant (colNum <= k <= lastColNum + 1) || (k == colNum && lastColNum < colNum)
      invariant |xl| == k - colNum
      invariant forall i :: 0 <= i < |xl| ==> ConvertToAlpha(colNum + i) == Some(xl[i])
      decreases lastColNum + 1 - k
    {
      var alpha := ConvertToAlpha(k);
      if alpha.None? {
        r := Err(KeyError);
        return;
      }
      xl := xl + [alpha.value];
      k := k + 1;
    }
    if xl != [] {
      assert ConvertToAlpha(colNum + 0) == Some(xl[0]);
      assert ConvertToAlpha(colNum + (|xl| - 1)) == Some(xl[|xl| - 1]);
    }
    LabelsBetweenUnique(colNum, lastColNum, xl);
    r := Ok(xl);
  }

  /** The loop building `all_columns_py` from the destination labels. */
  method ColumnOffsets(xl: seq<string>) returns (py: map<string, int>)
    requires forall i :: 0 <= i < |xl| ==> ConvertToNum(xl[i]).Some?
    ensures forall c :: c in py <==> c in xl
    ensures forall c :: c in py ==> ConvertToNum(c).Some? && py[c] == OffsetOf(xl, c)
  {
    py := map[];
    var i := 0;
    while i < |xl|
      invariant 0 <= i <= |xl|
      invariant forall c :: c in py <==> c in xl[..i]
      invariant forall c :: c in py ==> ConvertToNum(c).Some? && py[c] == OffsetOf(xl, c)
    {
      py := py[xl[i] := ConvertToNum(xl[i]).value - ConvertToNum(xl[0]).value];
      assert xl[..i + 1] == xl[..i] + [xl[i]];
      i := i + 1;
    }
    assert xl[..i] == xl;
  }

  /** Both loops: the destination labels and, for each, its offset into the rows. */
  method DestinationColumns(colNum: int, lastColNum: int) returns (r: Result<Columns>)
    ensures r.Err? <==> LabelsBetween(colNum, lastColNum).Err?
    ensures r.Ok? ==> r.value.xl == LabelsBetween(colNum, lastColNum).value
    ensures r.Ok? ==> forall i :: 0 <= i < |r.value.xl| ==> ConvertToNum(r.value.xl[i]).Some?
    ensures r.Ok? ==> forall c :: c in r.value.py <==> c in r.value.xl
    ensures r.Ok? ==> forall c :: c in r.value.py ==> ConvertToNum(c).Some? && r.value.py[c] == OffsetOf(r.value.xl, c)
  {
    var xl := DestinationLabels(colNum, lastColNum);
    if xl.Err? {
      return Err(xl.error);
    }
    LabelsReadBack(colNum, lastColNum);
    var py := ColumnOffsets(xl.value);
    r := Ok(Columns(xl.value, py));
  }

  lemma LabelsReadBack(first: int, last: int)
    requires LabelsBetween(first, last).Ok?
    ensures forall i :: 0 <= i < |LabelsBetween(first, last).value| ==> ConvertToNum(LabelsBetween(first, last).value[i]).Some?
  {
    var ls := LabelsBetween(first, last).value;
    forall i | 0 <= i < |ls| ensures ConvertToNum(ls[i]).Some? {
      DefaultNumOfAlpha(first + i);
    }
  }

  /** Labels that agree with `ConvertToAlpha` position by position are those of `LabelsBetween`. */
  lemma LabelsBetweenUnique(first: int, last: int, xl: seq<string>)
    requires LabelsBetween(first, last).Ok?
    requires |xl| == |LabelsBetween(first, last).value|
    requires forall i :: 0 <= i < |xl| ==> ConvertToAlpha(first + i) == Some(xl[i])
    ensures xl == LabelsBetween(first, last).value
  {
    var ls := LabelsBetween(first, last).value;
    forall i | 0 <= i < |xl| ensures xl[i] == ls[i] {
      assert ConvertToAlpha(first + i) == Some(ls[i]);
    }
  }

  /**
   * The offset of the column numbered `k` is its distance from the first
   * column, corrected by the duplicated two-letter labels: exact when both
   * lie on the same side of the 26/27 boundary.
   */
  lemma OffsetByNumber(first: int, last: int, k: int)
    requires LabelsBetween(first, last).Ok? && first <= k <= last
    ensures var xl := LabelsBetween(first, last).value;
      ConvertToNum(xl[k - first]).Some? && ConvertToNum(xl[0]).Some? &&
      OffsetOf(xl, xl[k - first]) == (k + Shift(k - 1)) - (first + Shift(first - 1))
    ensures var xl := LabelsBetween(first, last).value;
      Shift(k - 1) == Shift(first - 1) ==> OffsetOf(xl, xl[k - first]) == k - first
  {
    DefaultNumOfAlpha(k);
    DefaultNumOfAlpha(first);
  }

  /**
   * An array from column Y to AA: the offsets are 0, 1 and 678, so the third
   * column is looked for at position 678 instead of 2.
   */
  lemma OffsetsAcrossZ()
    ensures LabelsBetween(25, 27).Ok?
    ensures var xl := LabelsBetween(25, 27).value;
      |xl| == 3 && xl[2] == "AA" && OffsetOf(xl, xl[1]) == 1 && OffsetOf(xl, xl[2]) == 678
  {
    OffsetByNumber(25, 27, 26);
    OffsetByNumber(25, 27, 27);
    DuplicateAtLength3();
  }

  // ---------------------------------------------------------------------
  // The date-column rule

  /** The two cell formats `write` uses for the body: `date_format` and `wrap`. */
  datatype Format = DateFormat | WrapFormat

  /** One call of `sht.write` (`asDate` false) or `sht.write_datetime` (`asDate` true). */
  datatype Write = Write(row: int, col: int, content: Value, format: Format, asDate: bool)

  /** What is written for one body cell: in a date column a non-date becomes "NO DATE". */
  function CellWrite(rowPy: int, colPy: int, cell: Value, dateColumn: bool): Write
  {
    if dateColumn then
      if cell.Date? then Write(rowPy, colPy, cell, DateFormat, true)
      else Write(rowPy, colPy, Text("NO DATE"), DateFormat, false)
    else Write(rowPy, colPy, cell, WrapFormat, false)
  }

  /** The date rule as a property of a write. */
  predicate DateRuleHolds(w: Write)
  {
    (w.format == DateFormat ==> (w.asDate && w.content.Date?) || (!w.asDate && w.content == Text("NO DATE"))) &&
    (w.format == WrapFormat ==> !w.asDate)
  }

  /**
   * A date-column cell is written with the date format, as a datetime
   * exactly when it is a date and as "NO DATE" otherwise; any other cell is
   * written as it is with the wrap format. Nothing is ever lost but non-dates
   * in date columns.
   */
  lemma CellWriteSpec(rowPy: int, colPy: int, cell: Value, dateColumn: bool)
    ensures var w := CellWrite(rowPy, colPy, cell, dateColumn);
      w.row == rowPy && w.col == colPy && DateRuleHolds(w) &&
      (w.format == DateFormat <==> dateColumn) &&
      (w.asDate <==> dateColumn && cell.Date?) &&
      (w.content == cell <==> !dateColumn || cell.Date? || cell == Text("NO DATE"))
  {
  }

  /** `data.data[row_py][col_py]`, negative offsets counting from the end as in Python. */
  function CellAt(data: seq<seq<Value>>, rowPy: int, colPy: int): Result<Value>
  {
    match PyIndex(data, rowPy)
    case None => Err(IndexError)
    case Some(record) =>
      match PyIndex(record, colPy)
      case None => Err(IndexError)
      case Some(cell) => Ok(cell)
  }

  /** The write for column `col` of body row `row_py`. */
  function ColumnWrite(data: seq<seq<Value>>, rowPy: int, cols: Columns, dateCols: seq<string>, col: string): Result<Write>
  {
    if col !in cols.py then Err(KeyError)
    else
      var colPy := cols.py[col];
      match CellAt(data, rowPy, colPy)
      case Err(e) => Err(e)
      case Ok(cell) => Ok(CellWrite(rowPy, colPy, cell, dateCols != [] && col in dateCols))
  }

  /** The writes for the first `n` destination columns of body row `row_py`. */
  function RowWrites(data: seq<seq<Value>>, rowPy: int, cols: Columns, dateCols: seq<string>, n: nat): Result<seq<Write>>
    requires n <= |cols.xl|
  {
    if n == 0 then Ok([])
    else
      match RowWrites(data, rowPy, cols, dateCols, n - 1)
      case Err(e) => Err(e)
      case Ok(ws) =>
        match ColumnWrite(data, rowPy, cols, dateCols, cols.xl[n - 1])
        case Err(e) => Err(e)
        case Ok(w) => Ok(ws + [w])
  }

  /** The writes for body rows `1 .. m - 1` (`for row_py in range(1, m)`). */
  function BodyWrites(data: seq<seq<Value>>, cols: Columns, dateCols: seq<string>, m: int): Result<seq<Write>>
    decreases m
  {
    if m <= 1 then Ok([])
    else
      match BodyWrites(data, cols, dateCols, m - 1)
      case Err(e) => Err(e)
      case Ok(ws) =>
        match RowWrites(data, m - 1, cols, dateCols, |cols.xl|)
        case Err(e) => Err(e)
        case Ok(rw) => Ok(ws + rw)
  }

  /** The body loops of `write` for an array of `len` rows. */
  method WriteBody(data: seq<seq<Value>>, len: int, cols: Columns, dateCols: seq<string>) returns (r: Result<seq<Write>>)
    ensures r == BodyWrites(data, cols, dateCols, len)
  {
    var writes: seq<Write> := [];
    var rowPy := 1;
    while rowPy < len
      invariant len <= 1 || 1 <= rowPy <= len
      invariant BodyWrites(data, cols, dateCols, rowPy) == Ok(writes)
      decreases len - rowPy
    {
      var rowWrites: seq<Write> := [];
      var n := 0;
      while n < |cols.xl|
        invariant 0 <= n <= |cols.xl|
        invariant RowWrites(data, rowPy, cols, dateCols, n) == Ok(rowWrites)
      {
        var col := cols.xl[n];
        if col !in cols.py {
          r := Err(KeyError);
          BodyWritesErr(data, cols, dateCols, rowPy, n + 1, len);
          return;
        }
        var colPy := cols.py[col];
        var cell := CellAt(data, rowPy, colPy);
        if cell.Err? {
          r := Err(cell.error);
          BodyWritesErr(data, cols, dateCols, rowPy, n + 1, len);
          return;
        }
        rowWrites := rowWrites + [CellWrite(rowPy, colPy, cell.value, dateCols != [] && col in dateCols)];
        n := n + 1;
      }
      writes := writes + rowWrites;
      rowPy := rowPy + 1;
    }
    if len <= 1 {
      r := Ok([]);
    } else {
      r := Ok(writes);
    }
  }

  /** A failing row makes every later row count fail the same way. */
  lemma {:induction false} RowWritesErr(data: seq<seq<Value>>, rowPy: int, cols: Columns, dateCols: seq<string>, n: nat)
    requires 0 < n <= |cols.xl| && RowWrites(data, rowPy, cols, dateCols, n).Err?
    ensures RowWrites(data, rowPy, cols, dateCols, |cols.xl|) == RowWrites(data, rowPy, cols, dateCols, n)
    decreases |cols.xl| - n
  {
    if n < |cols.xl| {
      RowWritesErr(data, rowPy, cols, dateCols, n + 1);
    }
  }

  lemma {:induction false} BodyWritesErrFrom(data: seq<seq<Value>>, cols: Columns, dateCols: seq<string>, m: int, len: int)
    requires 1 < m <= len && BodyWrites(data, cols, dateCols, m).Err?
    ensures BodyWrites(data, cols, dateCols, len) == BodyWrites(data, cols, dateCols, m)
    decreases len - m
  {
    if m < len {
      BodyWritesErrFrom(data, cols, dateCols, m + 1, len);
    }
  }

  /** The loops stop at the first failing cell with the error `BodyWrites` reports. */
  lemma BodyWritesErr(data: seq<seq<Value>>, cols: Columns, dateCols: seq<string>, rowPy: int, n: nat, len: int)
    requires 1 <= rowPy < len && 0 < n <= |cols.xl|
    requires BodyWrites(data, cols, dateCols, rowPy).Ok?
    requires RowWrites(data, rowPy, cols, dateCols, n).Err?
    ensures BodyWrites(data, cols, dateCols, len) == Err(RowWrites(data, rowPy, cols, dateCols, n).error)
  {
    RowWritesErr(data, rowPy, cols, dateCols, n);
    BodyWritesErrFrom(data, cols, dateCols, rowPy + 1, len);
  }

  /**
   * Write `w` is the one `write` makes for destination column `i` of body row
   * `row_py`: the cell at that column's offset, under the date rule of its column.
   */
  predicate WritesCell(data: seq<seq<Value>>, rowPy: int, cols: Columns, dateCols: seq<string>, i: nat, w: Write)
    requires i < |cols.xl|
  {
    var col := cols.xl[i];
    col in cols.py && CellAt(data, rowPy, cols.py[col]).Ok? &&
    w == CellWrite(rowPy, cols.py[col], CellAt(data, rowPy, cols.py[col]).value, dateCols != [] && col in dateCols)
  }

  /** Where the write for body row `row_py` and destination column `i` sits in the list of body writes. */
  function BodyIndex(rowPy: int, i: int, width: int): int
  {
    (rowPy - 1) * width + i
  }

  /**
   * The body writes, row by row and column by column: write number
   * `(row_py - 1) * len(all_columns_xl) + i` is that of row `row_py` and
   * destination column `i`, and every write obeys the date rule.
   */
  lemma {:induction false} BodyWritesSpec(data: seq<seq<Value>>, cols: Columns, dateCols: seq<string>, m: int)
    requires BodyWrites(data, cols, dateCols, m).Ok?
    ensures var ws := BodyWrites(data, cols, dateCols, m).value;
      |ws| == (if m <= 1 then 0 else (m - 1) * |cols.xl|) && forall i :: 0 <= i < |ws| ==> DateRuleHolds(ws[i])
    ensures var ws := BodyWrites(data, cols, dateCols, m).value;
      forall r, i :: 1 <= r < m && 0 <= i < |cols.xl| ==>
        0 <= BodyIndex(r, i, |cols.xl|) < |ws| && WritesCell(data, r, cols, dateCols, i, ws[BodyIndex(r, i, |cols.xl|)])
    decreases m
  {
    if m > 1 {
      BodyWritesSpec(data, cols, dateCols, m - 1);
      RowWritesSpec(data, m - 1, cols, dateCols, |cols.xl|);
      var ws := BodyWrites(data, cols, dateCols, m).value;
      var front := BodyWrites(data, cols, dateCols, m - 1).value;
      var rw := RowWrites(data, m - 1, cols, dateCols, |cols.xl|).value;
      var w := |cols.xl|;
      assert ws == front + rw;
      assert |front| == (m - 2) * w;
      forall r, i | 1 <= r < m && 0 <= i < w
        ensures 0 <= BodyIndex(r, i, w) < |ws| && WritesCell(data, r, cols, dateCols, i, ws[BodyIndex(r, i, w)])
      {
        if r < m - 1 {
          BodyIndexBound(r, i, w, m - 1);
          assert ws[BodyIndex(r, i, w)] == front[BodyIndex(r, i, w)];
        } else {
          assert BodyIndex(r, i, w) == (m - 2) * w + i;
          assert ws[BodyIndex(r, i, w)] == rw[i];
        }
      }
    }
  }

  /** The writes of rows before `m` come before those of row `m`. */
  lemma {:induction false} BodyIndexBound(r: int, i: int, w: int, m: int)
    requires 1 <= r < m && 0 <= i < w
    ensures 0 <= BodyIndex(r, i, w) < (m - 1) * w
    decreases m
  {
    if m == r + 1 {
      if r > 1 {
        BodyIndexBound(r - 1, 0, w, r);
      }
      assert (m - 1) * w == (r - 1) * w + w;
    } else {
      BodyIndexBound(r, i, w, m - 1);
      assert (m - 1) * w == (m - 2) * w + w;
    }
  }

  /**
   * The writes of one body row: one per destination column, in order, write
   * `i` being that of column `all_columns_xl[i]` on this row.
   */
  lemma {:induction false} RowWritesSpec(data: seq<seq<Value>>, rowPy: int, cols: Columns, dateCols: seq<string>, n: nat)
    requires n <= |cols.xl| && RowWrites(data, rowPy, cols, dateCols, n).Ok?
    ensures var ws := RowWrites(data, rowPy, cols, dateCols, n).value;
      |ws| == n && forall i :: 0 <= i < |ws| ==> DateRuleHolds(ws[i]) && ws[i].row == rowPy
    ensures var ws := RowWrites(data, rowPy, cols, dateCols, n).value;
      forall i :: 0 <= i < |ws| ==> WritesCell(data, rowPy, cols, dateCols, i, ws[i])
  {
    if n > 0 {
      RowWritesSpec(data, rowPy, cols, dateCols, n - 1);
      var col := cols.xl[n - 1];
      var colPy := cols.py[col];
      var cell := CellAt(data, rowPy, colPy).value;
      CellWriteSpec(rowPy, colPy, cell, dateCols != [] && col in dateCols);
    }
  }

  // ---------------------------------------------------------------------
  // Column widths

  function Min(a: int, b: int): int
  {
    if a <= b then a else b
  }

  /**
   * The width rule for one column from the `str` lengths of its body cells:
   * 16 without body rows, 50 when the longest exceeds 50, otherwise the
   * longest but at least 16.
   */
  function ColumnWidth(lens: seq<nat>): (w: int)
    ensures 16 <= w <= 50
  {
    if lens == [] then 16
    else if SeqMax(lens) > 50 then 50
    else if SeqMax(lens) >= 16 then SeqMax(lens)
    else 16
  }

  /**
   * The width is the least number in [16, 50] that fits every cell, where a
   * cell longer than 50 counts as 50: it fits them all, and it is either 16
   * or the (capped) length of some cell.
   */
  lemma ColumnWidthFits(lens: seq<nat>)
    ensures forall k :: 0 <= k < |lens| ==> Min(lens[k], 50) <= ColumnWidth(lens)
    ensures ColumnWidth(lens) == 16 || exists k :: 0 <= k < |lens| && Min(lens[k], 50) == ColumnWidth(lens)
  {
    if lens != [] {
      var m := SeqMax(lens);
      var k :| 0 <= k < |lens| && lens[k] == m;
      assert Min(lens[k], 50) == Min(m, 50);
    }
  }

  /** `len_lst` for offset `col_py`: the `str` lengths of the body cells, given as `strLens` of the same shape as the rows. */
  function BodyLengths(strLens: seq<seq<nat>>, colPy: int): (r: Result<seq<nat>>)
    ensures r.Ok? ==> |r.value| == (if strLens == [] then 0 else |strLens| - 1)
    ensures r.Ok? ==> forall i :: 0 <= i < |r.value| ==> PyIndex(strLens[i + 1], colPy) == Some(r.value[i])
    ensures r.Err? <==> r == Err(IndexError)
  {
    if |strLens| <= 1 then Ok([])
    else
      match BodyLengths(strLens[..|strLens| - 1], colPy)
      case Err(e) => Err(e)
      case Ok(front) =>
        match PyIndex(strLens[|strLens| - 1], colPy)
        case None => Err(IndexError)
        case Some(n) => Ok(front + [n])
  }

  /** The `set_column` calls for the first `n` destination columns, as (label, width) pairs. */
  function WidthSettings(strLens: seq<seq<nat>>, cols: Columns, n: nat): Result<seq<(string, int)>>
    requires n <= |cols.xl|
  {
    if n == 0 then Ok([])
    else
      match WidthSettings(strLens, cols, n - 1)
      case Err(e) => Err(e)
      case Ok(front) =>
        var col := cols.xl[n - 1];
        if col !in cols.py then Err(KeyError)
        else
          match BodyLengths(strLens, cols.py[col])
          case Err(e) => Err(e)
          case Ok(lens) => Ok(front + [(col, ColumnWidth(lens))])
  }

  /** The width loop of `write` (no custom widths): one `set_column` per destination column. */
  method SetWidths(strLens: seq<seq<nat>>, cols: Columns) returns (r: Result<seq<(string, int)>>)
    ensures r == WidthSettings(strLens, cols, |cols.xl|)
  {
    var settings: seq<(string, int)> := [];
    var n := 0;
    while n < |cols.xl|
      invariant 0 <= n <= |cols.xl|
      invariant WidthSettings(strLens, cols, n) == Ok(settings)
    {
      var col := cols.xl[n];
      if col !in cols.py {
        r := Err(KeyError);
        WidthSettingsErr(strLens, cols, n + 1);
        return;
      }
      var lens := BodyLengths(strLens, cols.py[col]);
      if lens.Err? {
        r := Err(lens.error);
        WidthSettingsErr(strLens, cols, n + 1);
        return;
      }
      settings := settings + [(col, ColumnWidth(lens.value))];
      n := n + 1;
    }
    r := Ok(settings);
  }

  /** Once a column fails, the later columns do not change the outcome. */
  lemma {:induction false} WidthSettingsErr(strLens: seq<seq<nat>>, cols: Columns, n: nat)
    requires 0 < n <= |cols.xl| && WidthSettings(strLens, cols, n).Err?
    ensures WidthSettings(strLens, cols, |cols.xl|) == WidthSettings(strLens, cols, n)
    decreases |cols.xl| - n
  {
    if n < |cols.xl| {
      WidthSettingsErr(strLens, cols, n + 1);
    }
  }

  /**
   * Every destination column gets exactly one width, in order, between 16 and
   * 50: the width rule applied to the lengths of that column's body cells.
   */
  lemma {:induction false} WidthSettingsSpec(strLens: seq<seq<nat>>, cols: Columns, n: nat)
    requires n <= |cols.xl| && WidthSettings(strLens, cols, n).Ok?
    ensures var ws := WidthSettings(strLens, cols, n).value;
      |ws| == n && forall i :: 0 <= i < n ==> ws[i].0 == cols.xl[i] && 16 <= ws[i].1 <= 50
    ensures var ws := WidthSettings(strLens, cols, n).value;
      forall i :: 0 <= i < n ==>
        cols.xl[i] in cols.py && BodyLengths(strLens, cols.py[cols.xl[i]]).Ok? &&
        ws[i].1 == ColumnWidth(BodyLengths(strLens, cols.py[cols.xl[i]]).value)
  {
    if n > 0 {
      WidthSettingsSpec(strLens, cols, n - 1);
    }
  }

  /** Widths of a few columns, as the rule gives them. */
  lemma ColumnWidthExamples()
    ensures ColumnWidth([]) == 16 && ColumnWidth([3, 7]) == 16 && ColumnWidth([20, 35]) == 35
    ensures ColumnWidth([10, 80]) == 50
  {
    assert SeqMax([3, 7]) == 7 by { assert [3, 7][1..] == [7]; }
    assert SeqMax([20, 35]) == 35 by { assert [20, 35][1..] == [35]; }
    assert SeqMax([10, 80]) == 80 by { assert [10, 80][1..] == [80]; }
  }
}
