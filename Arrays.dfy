/**
 * `XlArray`: a two-layer nested list standing for an Excel array, together
 * with the Excel address of its upper-left cell and the range it covers.
 *
 * The attributes are first described as a value (`Sheet`) with the functions
 * that specify the constructor, `remove` and `filter`; the class `XlArray` at
 * the end holds the same attributes as mutable fields and implements the
 * operations with the loops of the original, proved against those functions.
 */
module Arrays {
  import opened Py
  import opened Cells
  import opened ColumnCodec

  // ---------------------------------------------------------------------
  // The attributes of an XlArray

  /**
   * The attributes of an `XlArray`. `header`, `colNum`, `lastColNum`,
   * `lastCol`, `range` and `name` are only assigned when the array is not
   * empty; for an empty array they hold the placeholders of `Unset`.
   * `row` is the upper-left row number, or `None` for the empty-string
   * placeholder that `filter` passes when no row qualified.
   */
  datatype Sheet = Sheet(
    data: seq<seq<Value>>,
    col: string,
    row: Option<int>,
    len: int,
    empty: bool,
    header: seq<Value>,
    colNum: int,
    lastColNum: int,
    lastCol: string,
    range: string,
    name: string)

  /** `str(row)`, where the empty-string placeholder prints as nothing. */
  function RowText(row: Option<int>): (s: string)
    ensures row.None? <==> s == ""
  {
    match row
    case None => ""
    case Some(n) => IntToString(n)
  }

  /** The rows as one nested Python list, the value `empty_check` is applied to. */
  function Grid(rows: seq<seq<Value>>): Value
  {
    List(seq(|rows|, i requires 0 <= i < |rows| => List(rows[i])))
  }

  /** The constructor's first step: a flat row (some element is not a list) becomes `[data]`. */
  function Wrap(data: seq<Value>): (rows: seq<seq<Value>>)
    ensures (forall i :: 0 <= i < |data| ==> data[i].List?) ==> |rows| == |data|
    ensures !(forall i :: 0 <= i < |data| ==> data[i].List?) ==> rows == [data]
  {
    if forall i :: 0 <= i < |data| ==> data[i].List? then
      seq(|data|, i requires 0 <= i < |data| => data[i].items)
    else
      [data]
  }

  /**
   * `XlArray.__init__` once the rows are known: a KeyError when the first
   * column label or the label of the last column is not in the tables.
   */
  function BuildRows(rows: seq<seq<Value>>, row: Option<int>, col: string): Result<Sheet>
  {
    if EmptyCheck(Grid(rows)) then
      Ok(Sheet(rows, col, row, |rows|, true, [], 0, 0, "", "", ""))
    else
      var header := rows[0];
      match ConvertToNum(col)
      case None => Err(KeyError)
      case Some(colNum) =>
        match ConvertToAlpha(|header| + colNum - 1)
        case None => Err(KeyError)
        case Some(lastCol) =>
          Ok(Sheet(rows, col, row, |rows|, false, header, colNum, colNum + |header| - 1, lastCol,
                   col + RowText(row) + ":" + lastCol + IntToString(|rows|), ""))
  }

  /** `XlArray(data, row, col)`. */
  function Build(data: seq<Value>, row: Option<int>, col: string): Result<Sheet>
  {
    BuildRows(Wrap(data), row, col)
  }

  /**
   * The address attributes agree with the conversion tables: `col_num` is the
   * number of `col` and `last_col` the label of `last_col_num`.
   */
  predicate Consistent(s: Sheet)
  {
    s.len == |s.data| &&
    (!s.empty ==> ConvertToNum(s.col) == Some(s.colNum) && ConvertToAlpha(s.lastColNum) == Some(s.lastCol))
  }

  /** Every row is exactly as wide as the range from `col_num` to `last_col_num`. */
  predicate WidthMatches(s: Sheet)
  {
    forall i :: 0 <= i < |s.data| ==> |s.data[i]| == s.lastColNum - s.colNum + 1
  }

  predicate Rectangular(rows: seq<seq<Value>>, width: int)
  {
    forall i :: 0 <= i < |rows| ==> |rows[i]| == width
  }

  /**
   * What the constructor promises: it fails exactly on a missing label; the
   * data are the wrapped rows; a non-empty array has the first row as header,
   * `last_col_num == col_num + len(header) - 1`, consistent labels, and a range
   * whose end row is the row COUNT, not `row + len - 1`.
   */
  lemma BuildSpec(rows: seq<seq<Value>>, row: Option<int>, col: string)
    ensures var r := BuildRows(rows, row, col);
      r.Ok? <==> EmptyCheck(Grid(rows)) ||
                 (ConvertToNum(col).Some? && ConvertToAlpha(|rows[0]| + ConvertToNum(col).value - 1).Some?)
    ensures var r := BuildRows(rows, row, col);
      r.Ok? ==> Consistent(r.value) && r.value.data == rows && r.value.col == col && r.value.row == row
    ensures var r := BuildRows(rows, row, col);
      r.Ok? && !r.value.empty ==>
        r.value.header == rows[0] &&
        r.value.lastColNum == r.value.colNum + |rows[0]| - 1 &&
        r.value.range == col + RowText(row) + ":" + r.value.lastCol + IntToString(|rows|)
  {
  }

  /** A rectangular non-empty array is built with every row as wide as its range. */
  lemma BuildWidth(rows: seq<seq<Value>>, row: Option<int>, col: string, width: int)
    requires Rectangular(rows, width) && BuildRows(rows, row, col).Ok?
    ensures !BuildRows(rows, row, col).value.empty ==> WidthMatches(BuildRows(rows, row, col).value)
  {
  }

  /** A flat row is wrapped into a one-row array; an array of rows is kept as it is. */
  lemma WrapSpec(data: seq<Value>)
    ensures (exists i :: 0 <= i < |data| && !data[i].List?) ==> Wrap(data) == [data]
    ensures (forall i :: 0 <= i < |data| ==> data[i].List?) ==>
      Grid(Wrap(data)) == List(data) && forall i :: 0 <= i < |data| ==> Wrap(data)[i] == data[i].items
  {
    if forall i :: 0 <= i < |data| ==> data[i].List? {
      var g := Grid(Wrap(data));
      assert g.items == data;
    }
  }

  /**
   * The example of the `remove` docstring: [[a, b], [c, d]] at (2, "F") covers
   * F2:G2 -- the range ends on row 2, the number of rows, where the
   * docstring speaks of F2:G3.
   */
  lemma BuildExample(a: Value, b: Value, c: Value, d: Value)
    requires CarriesData(a)
    ensures BuildRows([[a, b], [c, d]], Some(2), "F").Ok?
    ensures var s := BuildRows([[a, b], [c, d]], Some(2), "F").value;
      !s.empty && s.colNum == 6 && s.lastColNum == 7 && s.lastCol == "G" && s.range == "F2:G2"
  {
    var rows := [[a, b], [c, d]];
    assert !EmptyCheck(Grid(rows)) by {
      assert Grid(rows).items[0] == List([a, b]);
      assert [a, b][0] == a && !EmptyCheck(a);
      assert !EmptyCheck(List([a, b]));
    }
    assert ConvertToNum("F") == Some(6);
    assert ConvertToAlpha(7) == Some("G");
    assert IntToString(2) == "2";
  }

  // ---------------------------------------------------------------------
  // remove

  /** The three ways `remove` shortens a row. */
  datatype Cut = DropFirst | DropLast | Splice(pos: nat)

  /** `record[1:]`, `record[:-1]` and `record[:pos] + record[pos + 1:]`, with Python's clamped slices. */
  function CutRow(r: seq<Value>, cut: Cut): (r': seq<Value>)
    ensures r == [] ==> r' == []
    ensures r != [] && !cut.Splice? ==> |r'| == |r| - 1
    ensures cut.Splice? ==> if cut.pos < |r| then |r'| == |r| - 1 else r' == r
  {
    match cut
    case DropFirst => if r == [] then [] else r[1..]
    case DropLast => if r == [] then [] else r[..|r| - 1]
    case Splice(pos) => if pos < |r| then r[..pos] + r[pos + 1..] else r
  }

  /**
   * One pass of `for record in self.data: index = self.data.index(record);
   * self.data[index] = ...`: the row at position `k` is looked up again and the
   * FIRST row equal to it is the one replaced.
   */
  function RewriteStep(cur: seq<seq<Value>>, k: nat, cut: Cut): (next: seq<seq<Value>>)
    requires k < |cur|
    ensures |next| == |cur|
  {
    var i := IndexOf(cur, cur[k]);
    cur[i := CutRow(cur[k], cut)]
  }

  /** The rows after the first `k` passes of the rewrite loop. */
  function Rewritten(orig: seq<seq<Value>>, k: nat, cut: Cut): (cur: seq<seq<Value>>)
    requires k <= |orig|
    ensures |cur| == |orig|
  {
    if k == 0 then orig else RewriteStep(Rewritten(orig, k - 1, cut), k - 1, cut)
  }

  /** The whole rewrite loop. */
  function RewriteAll(orig: seq<seq<Value>>, cut: Cut): (rows: seq<seq<Value>>)
    ensures |rows| == |orig|
  {
    Rewritten(orig, |orig|, cut)
  }

  /** Rows `0 .. k-1` cut, the rest as they were. */
  function CutPrefix(orig: seq<seq<Value>>, k: nat, cut: Cut): seq<seq<Value>>
    requires k <= |orig|
  {
    seq(|orig|, i requires 0 <= i < |orig| => if i < k then CutRow(orig[i], cut) else orig[i])
  }

  /**
   * On a rectangular array the rewrite loop does what the comment intends:
   * every row is cut once.
   */
  lemma {:induction false} RewriteRectangular(orig: seq<seq<Value>>, width: nat, cut: Cut, k: nat)
    requires Rectangular(orig, width) && k <= |orig|
    ensures Rewritten(orig, k, cut) == CutPrefix(orig, k, cut)
  {
    if k == 0 {
      assert CutPrefix(orig, 0, cut) == orig;
    } else {
      RewriteRectangular(orig, width, cut, k - 1);
      StepOnPrefix(orig, width, cut, k - 1);
    }
  }

  /** One pass over a rectangular array whose first `k` rows are already cut cuts row `k`. */
  lemma StepOnPrefix(orig: seq<seq<Value>>, width: nat, cut: Cut, k: nat)
    requires Rectangular(orig, width) && k < |orig|
    ensures RewriteStep(CutPrefix(orig, k, cut), k, cut) == CutPrefix(orig, k + 1, cut)
  {
    var cur := CutPrefix(orig, k, cut);
    assert cur[k] == orig[k];
    var i := IndexOf(cur, cur[k]);
    var next := cur[i := CutRow(orig[k], cut)];
    if i < k {
      CutSameWidth(orig[i], orig[k], cut);
    }
    forall j | 0 <= j < |orig| ensures next[j] == CutPrefix(orig, k + 1, cut)[j] {
    }
  }

  /** A cut that leaves one row of a width as it is leaves every row of that width as it is. */
  lemma CutSameWidth(a: seq<Value>, b: seq<Value>, cut: Cut)
    requires |a| == |b| && CutRow(a, cut) == b
    ensures CutRow(b, cut) == b
  {
  }

  lemma RewriteAllRectangular(orig: seq<seq<Value>>, width: nat, cut: Cut)
    requires Rectangular(orig, width)
    ensures |RewriteAll(orig, cut)| == |orig|
    ensures forall i :: 0 <= i < |orig| ==> RewriteAll(orig, cut)[i] == CutRow(orig[i], cut)
  {
    RewriteRectangular(orig, width, cut, |orig|);
  }

  /**
   * On ragged rows `list.index` can pick an earlier row: cutting the first
   * cell of [[a, b], [b]] leaves [[], [b]], not [[b], []].
   */
  lemma RewriteRagged(a: Value, b: Value)
    requires a != b
    ensures RewriteAll([[a, b], [b]], DropFirst) == [[], [b]]
  {
    var orig := [[a, b], [b]];
    var s1 := RewriteStep(orig, 0, DropFirst);
    assert s1 == [[b], [b]];
    assert Rewritten(orig, 1, DropFirst) == s1;
    assert IndexOf(s1, s1[1]) == 0;
  }

  /** What one excluded column does to the array, and the error that may stop `remove`. */
  datatype Step = Step(sheet: Sheet, error: Option<Error>)

  /** One iteration of `for excluded_col in columns`. */
  function RemoveOne(s: Sheet, excluded: string): (st: Step)
  {
    match ConvertToNum(excluded)
    case None => Step(s, Some(KeyError))
    case Some(e) =>
      if !s.empty && e == s.colNum then
        var data := RewriteAll(s.data, DropFirst);
        match ConvertToAlpha(s.colNum + 1)
        case None => Step(s.(data := data), Some(KeyError))
        case Some(col) => Step(s.(data := data, col := col, colNum := ConvertToNum(col).value), None)
      else if !s.empty && e == s.lastColNum then
        Step(s.(data := RewriteAll(s.data, DropLast)), None)
      else if !s.empty && s.colNum < e < s.lastColNum then
        Step(s.(data := RewriteAll(s.data, Splice(e - 1))), None)
      else
        Step(s, None)
  }

  /** `remove(columns)`: the labels in turn, stopping at the first KeyError with the cuts made so far. */
  function RemoveAll(s: Sheet, labels: seq<string>): (st: Step)
    decreases |labels|
  {
    if labels == [] then Step(s, None)
    else
      var first := RemoveOne(s, labels[0]);
      if first.error.Some? then first else RemoveAll(first.sheet, labels[1..])
  }

  predicate SameFrame(s: Sheet, t: Sheet)
  {
    t.row == s.row && t.len == s.len && t.empty == s.empty && t.header == s.header &&
    t.lastColNum == s.lastColNum && t.lastCol == s.lastCol && t.range == s.range &&
    t.name == s.name && |t.data| == |s.data|
  }

  /**
   * `remove` never touches the row count, the header, `last_col_num`,
   * `last_col`, `range` or `row`, and it keeps the labels consistent.
   */
  lemma RemoveOneKeeps(s: Sheet, excluded: string)
    requires Consistent(s)
    ensures SameFrame(s, RemoveOne(s, excluded).sheet)
    ensures Consistent(RemoveOne(s, excluded).sheet)
    ensures RemoveOne(s, excluded).error.Some? <==>
      ConvertToNum(excluded).None? || (!s.empty && ConvertToNum(excluded).value == s.colNum && s.colNum == 18954)
  {
    var e := ConvertToNum(excluded);
    if e.Some? && !s.empty && e.value == s.colNum {
      var data := RewriteAll(s.data, DropFirst);
      if s.colNum + 1 <= 18954 {
        var col := ConvertToAlpha(s.colNum + 1).value;
        DefaultNumOfAlpha(s.colNum + 1);
        assert RemoveOne(s, excluded) == Step(s.(data := data, col := col, colNum := ConvertToNum(col).value), None);
      } else {
        assert RemoveOne(s, excluded) == Step(s.(data := data), Some(KeyError));
      }
    }
  }

  /** The same for a whole call of `remove`; the only error it can stop with is a KeyError. */
  lemma {:induction false} RemoveAllKeeps(s: Sheet, labels: seq<string>)
    requires Consistent(s)
    ensures SameFrame(s, RemoveAll(s, labels).sheet) && Consistent(RemoveAll(s, labels).sheet)
    ensures RemoveAll(s, labels).error.Some? ==> RemoveAll(s, labels).error == Some(KeyError)
    decreases |labels|
  {
    if labels != [] {
      RemoveOneKeeps(s, labels[0]);
      var first := RemoveOne(s, labels[0]);
      if first.error.None? {
        RemoveAllKeeps(first.sheet, labels[1..]);
      }
    }
  }

  /** Unknown labels raise KeyError even on an empty array: the lookup comes before the emptiness test. */
  lemma RemoveUnknownLabel(s: Sheet, excluded: string)
    requires ConvertToNum(excluded).None?
    ensures RemoveOne(s, excluded) == Step(s, Some(KeyError))
    ensures RemoveAll(s, [excluded]) == Step(s, Some(KeyError))
  {
  }

  /** A label outside [col_num, last_col_num], or any label on an empty array, changes nothing. */
  lemma RemoveOutside(s: Sheet, excluded: string)
    requires ConvertToNum(excluded).Some?
    requires var e := ConvertToNum(excluded).value;
      s.empty || (e < s.colNum && e < s.lastColNum) || (e > s.colNum && e > s.lastColNum)
    ensures RemoveOne(s, excluded) == Step(s, None)
  {
  }

  /**
   * The first column: every row loses its first cell and `col` moves one
   * label on; `col_num` becomes the number of that label, which past "Z"
   * is the second copy (from "Z" = 26 to "AA" = 703).
   */
  lemma RemoveFirstColumn(s: Sheet, width: nat)
    requires Consistent(s) && !s.empty && Rectangular(s.data, width) && s.colNum < 18954
    ensures var t := RemoveOne(s, s.col).sheet;
      RemoveOne(s, s.col).error.None? &&
      (forall i :: 0 <= i < |s.data| ==> t.data[i] == CutRow(s.data[i], DropFirst)) &&
      t.col == ConvertToAlpha(s.colNum + 1).value &&
      t.colNum == s.colNum + 1 + Shift(s.colNum)
  {
    RewriteAllRectangular(s.data, width, DropFirst);
    DefaultNumOfAlpha(s.colNum + 1);
  }

  /**
   * The last column (of a wider array) whose label is listed once: every
   * row loses its last cell but `last_col_num` stays, so the range now
   * claims one column too many.
   */
  lemma RemoveLastColumn(s: Sheet, width: nat)
    requires Consistent(s) && !s.empty && WidthMatches(s) && s.colNum < s.lastColNum
    requires Rectangular(s.data, width) && |s.data| > 0 && Shift(s.lastColNum - 1) == 0
    ensures var t := RemoveOne(s, s.lastCol).sheet;
      RemoveOne(s, s.lastCol).error.None? &&
      (forall i :: 0 <= i < |s.data| ==> t.data[i] == CutRow(s.data[i], DropLast)) &&
      t.lastColNum == s.lastColNum && t.colNum == s.colNum && !WidthMatches(t)
  {
    DefaultNumOfAlpha(s.lastColNum);
    RewriteAllRectangular(s.data, width, DropLast);
    var t := RemoveOne(s, s.lastCol).sheet;
    assert |t.data[0]| == width - 1;
  }

  /**
   * When the last column is one of "AA" .. "ZZ" numbered 27 .. 702, its label
   * looks up as 703 .. 1378. So `remove([last_col])` leaves the array as it
   * is, unless `col_num` is that later number (as after removing the columns
   * up to "Z" of an array that ends past "Z"); then it is the first-column
   * case and drops the first cell of every row.
   */
  lemma RemoveTwoLetterLastColumn(s: Sheet)
    requires Consistent(s) && !s.empty && 27 <= s.lastColNum <= 702
    ensures ConvertToNum(s.lastCol) == Some(s.lastColNum + 676)
    ensures s.colNum != s.lastColNum + 676 ==> RemoveOne(s, s.lastCol) == Step(s, None)
    ensures s.colNum == s.lastColNum + 676 ==> RemoveOne(s, s.lastCol) == RemoveOne(s, s.col)
  {
    DefaultNumOfAlpha(s.lastColNum);
  }

  /**
   * [[a, a, a]] at "Y" ends in column "AA" (number 27). After `remove(["Y",
   * "Z"])` its first column is "AA" as well, numbered 703, and
   * `remove(["AA"])` drops the first cell of the row.
   */
  lemma RemoveShiftedLastColumnExample(a: Value)
    requires CarriesData(a)
    ensures BuildRows([[a, a, a]], Some(1), "Y").Ok?
    ensures var s := BuildRows([[a, a, a]], Some(1), "Y").value;
      var t := RemoveAll(s, ["Y", "Z"]);
      s.lastCol == "AA" && s.lastColNum == 27 &&
      t.error.None? && t.sheet.col == "AA" && t.sheet.colNum == 703 && t.sheet.data == [[a]] &&
      RemoveOne(t.sheet, t.sheet.lastCol) == Step(t.sheet.(data := [[]], col := "AB", colNum := 704), None)
  {
    var rows := [[a, a, a]];
    assert !EmptyCheck(Grid(rows)) by {
      assert Grid(rows).items[0] == List([a, a, a]);
      assert [a, a, a][0] == a && !EmptyCheck(a);
      assert !EmptyCheck(List([a, a, a]));
    }
    assert ConvertToNum("Y") == Some(25);
    assert ConvertToAlpha(27) == Some("AA");
    var s := BuildRows(rows, Some(1), "Y").value;
    assert s.data == [[a, a, a]] && s.col == "Y" && s.colNum == 25 && !s.empty;
    var s1 := RemoveShiftedStep(s, "Y", 25, "Z", 26, a, [a, a], [a, a, a]);
    var s2 := RemoveShiftedStep(s1, "Z", 26, "AA", 703, a, [a], [a, a]);
    assert RemoveAll(s, ["Y", "Z"]) == RemoveAll(s1, ["Z"]);
    assert RemoveAll(s1, ["Z"]) == RemoveAll(s2, []);
    RemoveShiftedFirstColumn(s2, a);
  }

  /** Removing the first column of a one-row array: the row loses its first cell and `col` moves on. */
  lemma RemoveShiftedStep(s: Sheet, col: string, colNum: int, next: string, nextNum: int, a: Value, rest: seq<Value>, row: seq<Value>)
    returns (t: Sheet)
    requires !s.empty && s.data == [row] && row == [a] + rest && s.col == col && s.colNum == colNum
    requires ConvertToNum(col) == Some(colNum) && ConvertToAlpha(colNum + 1) == Some(next) && ConvertToNum(next) == Some(nextNum)
    ensures t == s.(data := [rest], col := next, colNum := nextNum)
    ensures RemoveOne(s, col) == Step(t, None)
  {
    RewriteAllRectangular(s.data, |row|, DropFirst);
    var d := RewriteAll(s.data, DropFirst);
    assert d[0] == rest;
    assert d == [rest];
    t := s.(data := [rest], col := next, colNum := nextNum);
  }

  /** An array whose first and last column are both "AA", as 703 and 27: removing "AA" drops the first cell. */
  lemma RemoveShiftedFirstColumn(t: Sheet, a: Value)
    requires !t.empty && t.data == [[a]] && t.col == "AA" && t.colNum == 703 && t.lastCol == "AA" && t.lastColNum == 27
    ensures RemoveOne(t, t.lastCol) == Step(t.(data := [[]], col := "AB", colNum := 704), None)
  {
    assert ConvertToNum("AA") == Some(703);
    RewriteAllRectangular(t.data, 1, DropFirst);
    var d3 := RewriteAll(t.data, DropFirst);
    assert d3[0] == [];
    assert d3 == [[]];
    assert ConvertToAlpha(704) == Some("AB") && ConvertToNum("AB") == Some(704);
  }

  /**
   * A column strictly inside: the cell at ABSOLUTE position `e - 1` is
   * spliced out of every row, which is the column labelled `e` only when the
   * array starts in column A.
   */
  lemma RemoveMiddleColumn(s: Sheet, excluded: string, width: nat)
    requires Consistent(s) && !s.empty && Rectangular(s.data, width)
    requires ConvertToNum(excluded).Some? && s.colNum < ConvertToNum(excluded).value < s.lastColNum
    ensures var e := ConvertToNum(excluded).value; var t := RemoveOne(s, excluded).sheet;
      RemoveOne(s, excluded).error.None? &&
      (forall i :: 0 <= i < |s.data| ==> t.data[i] == CutRow(s.data[i], Splice(e - 1))) &&
      t.col == s.col && t.colNum == s.colNum
  {
    RewriteAllRectangular(s.data, width, Splice(ConvertToNum(excluded).value - 1));
  }

  /** The docstring's example: [[a, b], [c, d]] at (2, "F"), `remove(["G"])` leaves [[a], [c]]. */
  lemma RemoveExample(a: Value, b: Value, c: Value, d: Value)
    requires CarriesData(a)
    ensures BuildRows([[a, b], [c, d]], Some(2), "F").Ok?
    ensures var s := BuildRows([[a, b], [c, d]], Some(2), "F").value;
      RemoveAll(s, ["G"]) == Step(s.(data := [[a], [c]]), None)
  {
    BuildExample(a, b, c, d);
    var s := BuildRows([[a, b], [c, d]], Some(2), "F").value;
    assert ConvertToNum("G") == Some(7);
    RewriteAllRectangular(s.data, 2, DropLast);
    var rows := RewriteAll(s.data, DropLast);
    assert rows[0] == [a] && rows[1] == [c];
    assert rows == [[a], [c]];
    assert RemoveOne(s, "G") == Step(s.(data := [[a], [c]]), None);
    assert RemoveAll(s, ["G"]) == RemoveOne(s, "G");
  }

  /**
   * The middle case on an array starting in column B: removing "C" from
   * [[a, b, c]] at B takes out `c` (column D), not `b`.
   */
  lemma RemoveMiddleExample(a: Value, b: Value, c: Value)
    requires CarriesData(a)
    ensures BuildRows([[a, b, c]], Some(1), "B").Ok?
    ensures var s := BuildRows([[a, b, c]], Some(1), "B").value;
      RemoveOne(s, "C") == Step(s.(data := [[a, b]]), None)
  {
    var rows := [[a, b, c]];
    assert !EmptyCheck(Grid(rows)) by {
      assert Grid(rows).items[0] == List([a, b, c]);
      assert [a, b, c][0] == a && !EmptyCheck(a);
      assert !EmptyCheck(List([a, b, c]));
    }
    assert ConvertToNum("B") == Some(2);
    assert ConvertToAlpha(4) == Some("D");
    var s := BuildRows(rows, Some(1), "B").value;
    assert ConvertToNum("C") == Some(3);
    assert s.colNum == 2 && s.lastColNum == 4;
    RewriteAllRectangular(s.data, 3, Splice(2));
    var cut := RewriteAll(s.data, Splice(2));
    assert cut[0] == [a, b];
    assert cut == [[a, b]];
  }

  // ---------------------------------------------------------------------
  // filter

  /** `not filter_row`: the empty-string placeholder and the row number 0 are both falsy. */
  predicate Falsy(anchor: Option<int>)
  {
    anchor.None? || anchor == Some(0)
  }

  /** `self.data.index(record) + self.row - 1` for the record at position `k`. */
  function AnchorAt(data: seq<seq<Value>>, k: nat, r: int): int
    requires k < |data|
  {
    IndexOf(data, data[k]) + r - 1
  }

  /** A record the loop body acts on: its cell equals `value`, or the filter is not strict. */
  predicate Qualifies(record: seq<Value>, column: int, value: Value, strict: bool)
  {
    PyIndex(record, column).Some? && (PyIndex(record, column).value == value || !strict)
  }

  /** The two lists the loop accumulates: `filtered_array` and `filter_row`. */
  datatype Scan = Scan(kept: seq<seq<Value>>, anchor: Option<int>)

  /** The anchor update at a qualifying record; adding an int to the placeholder row is a TypeError. */
  function Anchored(data: seq<seq<Value>>, k: nat, anchor: Option<int>, row: Option<int>): (r: Result<Option<int>>)
    requires k < |data|
    ensures r.Ok? ==> r.value.Some?
  {
    if !Falsy(anchor) then Ok(anchor)
    else match row
      case None => Err(TypeError)
      case Some(n) => Ok(Some(AnchorAt(data, k, n)))
  }

  /**
   * The `try` block of the non-strict branch: `.split()` of a cell that is not a
   * string raises AttributeError (not the TypeError that is caught), and
   * `value.split()` is only reached when the cell has a token.
   */
  function TokensMatch(cell: Value, value: Value): Result<bool>
  {
    if !cell.Text? then Err(AttributeError)
    else
      var entry := Split(cell.s);
      if entry == [] then Ok(true)
      else if !value.Text? then Err(AttributeError)
      else Ok(forall i :: 0 <= i < |entry| ==> entry[i] in Split(value.s))
  }

  /** One pass of `for record in self.data` over the record at position `k`. */
  function FilterStep(data: seq<seq<Value>>, k: nat, sc: Scan, row: Option<int>, column: int, value: Value, strict: bool): Result<Scan>
    requires k < |data|
  {
    var record := data[k];
    match PyIndex(record, column)
    case None => Err(IndexError)
    case Some(cell) =>
      if cell == value then
        match Anchored(data, k, sc.anchor, row)
        case Err(e) => Err(e)
        case Ok(a) => Ok(Scan(sc.kept + [record], a))
      else if !strict then
        match Anchored(data, k, sc.anchor, row)
        case Err(e) => Err(e)
        case Ok(a) =>
          match TokensMatch(cell, value)
          case Err(e) => Err(e)
          case Ok(keep) => Ok(Scan(if keep then sc.kept + [record] else sc.kept, a))
      else
        Ok(sc)
  }

  /** The loop state after the first `n` records. */
  function FilterUpTo(data: seq<seq<Value>>, n: nat, row: Option<int>, column: int, value: Value, strict: bool): Result<Scan>
    requires n <= |data|
  {
    if n == 0 then Ok(Scan([], None))
    else
      match FilterUpTo(data, n - 1, row, column, value, strict)
      case Err(e) => Err(e)
      case Ok(sc) => FilterStep(data, n - 1, sc, row, column, value, strict)
  }

  /** `filter(column, value, strict)`: a new array of the kept records, anchored at `filter_row` and `self.col`. */
  function FilterSheet(s: Sheet, column: int, value: Value, strict: bool): Result<Sheet>
  {
    match FilterUpTo(s.data, |s.data|, s.row, column, value, strict)
    case Err(e) => Err(e)
    case Ok(sc) => BuildRows(sc.kept, sc.anchor, s.col)
  }

  // Reference reading of the filter

  /** A cell matches: equal to `value`, or (non-strict) a string whose tokens all occur among `value`'s tokens. */
  predicate Matches(cell: Value, value: Value, strict: bool)
  {
    cell == value ||
    (!strict && cell.Text? &&
     (Split(cell.s) == [] || (value.Text? && forall t :: t in Split(cell.s) ==> t in Split(value.s))))
  }

  /** A record the filter gets past without raising (apart from the anchor's TypeError). */
  predicate Passes(record: seq<Value>, column: int, value: Value, strict: bool)
  {
    PyIndex(record, column).Some? &&
    var cell := PyIndex(record, column).value;
    (cell != value && !strict ==> cell.Text? && (Split(cell.s) != [] ==> value.Text?))
  }

  /** The records whose cell matches, in their original order. */
  function KeptRows(data: seq<seq<Value>>, column: int, value: Value, strict: bool): (rows: seq<seq<Value>>)
    requires forall k :: 0 <= k < |data| ==> PyIndex(data[k], column).Some?
    ensures |rows| <= |data|
  {
    if data == [] then []
    else
      var last := data[|data| - 1];
      KeptRows(data[..|data| - 1], column, value, strict) +
        (if Matches(PyIndex(last, column).value, value, strict) then [last] else [])
  }

  /** When the try block succeeds, it answers exactly `Matches`. */
  lemma TokensMatchIsMatches(cell: Value, value: Value)
    requires cell != value && TokensMatch(cell, value).Ok?
    ensures TokensMatch(cell, value).value <==> Matches(cell, value, false)
  {
  }

  /** How one record changes the anchor: only a qualifying record meeting a falsy anchor sets it. */
  lemma AnchorStep(data: seq<seq<Value>>, n: nat, row: Option<int>, column: int, value: Value, strict: bool)
    requires 0 < n <= |data| && FilterUpTo(data, n, row, column, value, strict).Ok?
    ensures FilterUpTo(data, n - 1, row, column, value, strict).Ok?
    ensures var sc := FilterUpTo(data, n - 1, row, column, value, strict).value;
      var a := FilterUpTo(data, n, row, column, value, strict).value.anchor;
      if Qualifies(data[n - 1], column, value, strict) && Falsy(sc.anchor)
      then row.Some? && a == Some(AnchorAt(data, n - 1, row.value))
      else a == sc.anchor
  {
  }

  /** Whether one more record raises: it lacks the column, fails the try block, or meets the placeholder row. */
  lemma FilterStepOk(data: seq<seq<Value>>, n: nat, row: Option<int>, column: int, value: Value, strict: bool)
    requires 0 < n <= |data| && FilterUpTo(data, n - 1, row, column, value, strict).Ok?
    ensures var sc := FilterUpTo(data, n - 1, row, column, value, strict).value;
      FilterUpTo(data, n, row, column, value, strict).Ok? <==>
        Passes(data[n - 1], column, value, strict) &&
        !(row.None? && Falsy(sc.anchor) && Qualifies(data[n - 1], column, value, strict))
  {
  }

  /** What one more record adds to the kept records: itself exactly when its cell matches. */
  lemma FilterStepKept(data: seq<seq<Value>>, n: nat, row: Option<int>, column: int, value: Value, strict: bool)
    requires 0 < n <= |data| && FilterUpTo(data, n, row, column, value, strict).Ok?
    ensures FilterUpTo(data, n - 1, row, column, value, strict).Ok?
    ensures PyIndex(data[n - 1], column).Some?
    ensures FilterUpTo(data, n, row, column, value, strict).value.kept ==
      FilterUpTo(data, n - 1, row, column, value, strict).value.kept +
        (if Matches(PyIndex(data[n - 1], column).value, value, strict) then [data[n - 1]] else [])
  {
    var cell := PyIndex(data[n - 1], column).value;
    if cell != value && !strict {
      TokensMatchIsMatches(cell, value);
    }
  }

  /**
   * The filter fails exactly when some record lacks the column, or (non-strict)
   * has a non-equal cell that is not a string, or has tokens while `value` is
   * not a string, or when a record qualifies while the row is the placeholder.
   */
  lemma {:induction false} FilterUpToOk(data: seq<seq<Value>>, n: nat, row: Option<int>, column: int, value: Value, strict: bool)
    requires n <= |data|
    ensures FilterUpTo(data, n, row, column, value, strict).Ok? <==>
      (forall k :: 0 <= k < n ==> Passes(data[k], column, value, strict)) &&
      (row.None? ==> forall k :: 0 <= k < n ==> !Qualifies(data[k], column, value, strict))
  {
    if n > 0 {
      FilterUpToOk(data, n - 1, row, column, value, strict);
      var prev := FilterUpTo(data, n - 1, row, column, value, strict);
      if prev.Ok? {
        FilterAnchorNone(data, n - 1, row, column, value, strict);
        FilterStepOk(data, n, row, column, value, strict);
      }
    }
  }

  /** The anchor is still the placeholder exactly while no record has qualified. */
  lemma {:induction false} FilterAnchorNone(data: seq<seq<Value>>, n: nat, row: Option<int>, column: int, value: Value, strict: bool)
    requires n <= |data| && FilterUpTo(data, n, row, column, value, strict).Ok?
    ensures FilterUpTo(data, n, row, column, value, strict).value.anchor.None? <==>
      forall k :: 0 <= k < n ==> !Qualifies(data[k], column, value, strict)
  {
    if n > 0 {
      AnchorStep(data, n, row, column, value, strict);
      FilterAnchorNone(data, n - 1, row, column, value, strict);
    }
  }

  /** The kept records are exactly the matching ones, in source order. */
  lemma {:induction false} FilterUpToKept(data: seq<seq<Value>>, n: nat, row: Option<int>, column: int, value: Value, strict: bool)
    requires n <= |data| && FilterUpTo(data, n, row, column, value, strict).Ok?
    ensures forall k :: 0 <= k < n ==> PyIndex(data[k], column).Some?
    ensures FilterUpTo(data, n, row, column, value, strict).value.kept == KeptRows(data[..n], column, value, strict)
  {
    if n > 0 {
      FilterStepKept(data, n, row, column, value, strict);
      FilterUpToKept(data, n - 1, row, column, value, strict);
      assert data[..n][..n - 1] == data[..n - 1];
    }
  }

  /** Record `k` qualifies and every qualifying record before it gives anchor 0. */
  predicate FirstNonZero(data: seq<seq<Value>>, k: nat, r: int, column: int, value: Value, strict: bool)
    requires k < |data|
  {
    Qualifies(data[k], column, value, strict) &&
    forall j :: 0 <= j < k && Qualifies(data[j], column, value, strict) ==> AnchorAt(data, j, r) == 0
  }

  /**
   * The anchor is `index + row - 1` of a qualifying record `k`, and no
   * qualifying record before `k` gives a non-zero anchor.
   */
  lemma {:induction false} FilterUpToAnchor(data: seq<seq<Value>>, n: nat, row: Option<int>, column: int, value: Value, strict: bool)
    requires n <= |data| && FilterUpTo(data, n, row, column, value, strict).Ok?
    ensures var a := FilterUpTo(data, n, row, column, value, strict).value.anchor;
      a.Some? ==> (row.Some? &&
        exists k :: 0 <= k < n && FirstNonZero(data, k, row.value, column, value, strict) && a.value == AnchorAt(data, k, row.value))
  {
    if n > 0 {
      AnchorStep(data, n, row, column, value, strict);
      var sc := FilterUpTo(data, n - 1, row, column, value, strict).value;
      if Qualifies(data[n - 1], column, value, strict) && Falsy(sc.anchor) {
        if sc.anchor.None? {
          FilterAnchorNone(data, n - 1, row, column, value, strict);
        } else {
          FilterZeroAnchor(data, n - 1, row, column, value, strict);
        }
        assert FirstNonZero(data, n - 1, row.value, column, value, strict);
      } else {
        FilterUpToAnchor(data, n - 1, row, column, value, strict);
      }
    }
  }

  /** An anchor of 0 means every qualifying record so far gives 0. */
  lemma {:induction false} FilterZeroAnchor(data: seq<seq<Value>>, n: nat, row: Option<int>, column: int, value: Value, strict: bool)
    requires n <= |data| && FilterUpTo(data, n, row, column, value, strict).Ok?
    ensures var a := FilterUpTo(data, n, row, column, value, strict).value.anchor;
      a == Some(0) ==> row.Some? && forall j :: 0 <= j < n && Qualifies(data[j], column, value, strict) ==> AnchorAt(data, j, row.value) == 0
  {
    if n > 0 {
      AnchorStep(data, n, row, column, value, strict);
      FilterZeroAnchor(data, n - 1, row, column, value, strict);
      var sc := FilterUpTo(data, n - 1, row, column, value, strict).value;
      if sc.anchor.None? {
        FilterAnchorNone(data, n - 1, row, column, value, strict);
      }
    }
  }

  /** Records that are pairwise different, as the comment on `remove` assumes. */
  predicate DistinctRows(data: seq<seq<Value>>)
  {
    forall i, j :: 0 <= i < j < |data| ==> data[i] != data[j]
  }

  lemma IndexOfDistinct(data: seq<seq<Value>>, k: nat)
    requires DistinctRows(data) && k < |data|
    ensures IndexOf(data, data[k]) == k
  {
  }

  /**
   * With pairwise different records and an anchor row of at least 2, the new
   * anchor is `k + row - 1` for the FIRST qualifying record `k`.
   */
  lemma {:induction false} FilterAnchorDistinct(data: seq<seq<Value>>, n: nat, r: int, column: int, value: Value, strict: bool, k: nat)
    requires DistinctRows(data) && r >= 2 && k < n <= |data|
    requires FilterUpTo(data, n, Some(r), column, value, strict).Ok?
    requires Qualifies(data[k], column, value, strict)
    requires forall j :: 0 <= j < k ==> !Qualifies(data[j], column, value, strict)
    ensures FilterUpTo(data, n, Some(r), column, value, strict).value.anchor == Some(k + r - 1)
  {
    AnchorStep(data, n, Some(r), column, value, strict);
    if n == k + 1 {
      FilterAnchorNone(data, k, Some(r), column, value, strict);
      IndexOfDistinct(data, k);
    } else {
      FilterAnchorDistinct(data, n - 1, r, column, value, strict, k);
    }
  }

  /**
   * What `filter` returns: every record has the column, the new array holds
   * exactly the matching records in source order, keeps `self.col`, and its
   * row is the placeholder exactly when no record qualified. The source array
   * is a value here and is left as it was.
   */
  lemma FilterResult(s: Sheet, column: int, value: Value, strict: bool)
    requires FilterSheet(s, column, value, strict).Ok?
    ensures forall k :: 0 <= k < |s.data| ==> PyIndex(s.data[k], column).Some?
    ensures var t := FilterSheet(s, column, value, strict).value;
      t.data == KeptRows(s.data, column, value, strict) && t.col == s.col &&
      (t.row.None? <==> forall k :: 0 <= k < |s.data| ==> !Qualifies(s.data[k], column, value, strict))
  {
    FilterUpToKept(s.data, |s.data|, s.row, column, value, strict);
    FilterAnchorNone(s.data, |s.data|, s.row, column, value, strict);
    assert s.data[..|s.data|] == s.data;
  }

  /** Strict mode raises only for a missing column (or the placeholder row) and keeps exactly the equal cells. */
  lemma FilterStrict(data: seq<seq<Value>>, row: Option<int>, column: int, value: Value)
    requires forall k :: 0 <= k < |data| ==> PyIndex(data[k], column).Some?
    requires row.Some?
    ensures FilterUpTo(data, |data|, row, column, value, true).Ok?
    ensures forall k :: 0 <= k < |data| ==>
      (Matches(PyIndex(data[k], column).value, value, true) <==> PyIndex(data[k], column).value == value)
  {
    FilterUpToOk(data, |data|, row, column, value, true);
  }

  /** A cell without tokens matches any value in non-strict mode. */
  lemma TokenlessCellMatches(cell: string, value: Value)
    requires AllSpace(cell)
    ensures Matches(Text(cell), value, false)
    ensures TokensMatch(Text(cell), value) == Ok(true)
  {
    SplitEmpty(cell);
  }

  /** In non-strict mode a record whose cell is not a string and not equal to `value` makes the filter raise. */
  lemma FilterNonTextRaises(data: seq<seq<Value>>, row: Option<int>, column: int, value: Value, k: nat)
    requires k < |data| && PyIndex(data[k], column).Some?
    requires PyIndex(data[k], column).value != value && !PyIndex(data[k], column).value.Text?
    ensures FilterUpTo(data, |data|, row, column, value, false).Err?
  {
    FilterUpToOk(data, |data|, row, column, value, false);
  }

  /** The records of the strict-filter example: X, Y, X in column 0. */
  function XYX(): seq<seq<Value>>
  {
    [[Text("X"), Num(1)], [Text("Y"), Num(2)], [Text("X"), Num(3)]]
  }

  lemma XYXFacts()
    ensures |XYX()| == 3
    ensures IndexOf(XYX(), XYX()[0]) == 0 && IndexOf(XYX(), XYX()[2]) == 2
    ensures PyIndex(XYX()[0], 0) == Some(Text("X")) && PyIndex(XYX()[2], 0) == Some(Text("X"))
    ensures PyIndex(XYX()[1], 0) == Some(Text("Y")) && Text("Y") != Text("X")
  {
    var data := XYX();
    assert IndexOf(data, data[2]) == 2 by {
      assert data[0][1] != data[2][1] && data[1][0] != data[2][0];
    }
    assert Text("Y") != Text("X") by { assert "Y"[0] != "X"[0]; }
  }

  /**
   * Strict filter of [[X, 1], [Y, 2], [X, 3]] on column 0 for X from row 2:
   * the two X records, anchored at 1.
   */
  lemma FilterStrictExample()
    ensures FilterUpTo(XYX(), 3, Some(2), 0, Text("X"), true) == Ok(Scan([XYX()[0], XYX()[2]], Some(1)))
  {
    XYXFacts();
    var data := XYX();
    assert [] + [data[0]] == [data[0]];
    assert FilterUpTo(data, 1, Some(2), 0, Text("X"), true) == Ok(Scan([data[0]], Some(1)));
    assert FilterUpTo(data, 2, Some(2), 0, Text("X"), true) == Ok(Scan([data[0]], Some(1)));
    assert [data[0]] + [data[2]] == [data[0], data[2]];
    assert FilterStep(data, 2, Scan([data[0]], Some(1)), Some(2), 0, Text("X"), true) == Ok(Scan([data[0], data[2]], Some(1)));
  }

  /**
   * The same filter from row 1: the first X gives anchor 0, which is falsy,
   * so the second X recomputes it as 2.
   */
  lemma FilterStrictRowOneExample()
    ensures FilterUpTo(XYX(), 3, Some(1), 0, Text("X"), true) == Ok(Scan([XYX()[0], XYX()[2]], Some(2)))
  {
    XYXFacts();
    var data := XYX();
    assert [] + [data[0]] == [data[0]];
    assert FilterUpTo(data, 1, Some(1), 0, Text("X"), true) == Ok(Scan([data[0]], Some(0)));
    assert FilterUpTo(data, 2, Some(1), 0, Text("X"), true) == Ok(Scan([data[0]], Some(0)));
    assert [data[0]] + [data[2]] == [data[0], data[2]];
    assert FilterStep(data, 2, Scan([data[0]], Some(0)), Some(1), 0, Text("X"), true) == Ok(Scan([data[0], data[2]], Some(2)));
  }

  /**
   * Non-strict filter of [[u], [v]] for the word v from row 2 (as [["b"], ["a"]]
   * for "a"): the first record is not kept but still sets the anchor.
   */
  lemma FilterLooseAnchorExample(u: string, v: string)
    requires u != [] && v != [] && NoSpace(u) && NoSpace(v) && u != v
    ensures FilterUpTo([[Text(u)], [Text(v)]], 2, Some(2), 0, Text(v), false) == Ok(Scan([[Text(v)]], Some(1)))
  {
    var data := [[Text(u)], [Text(v)]];
    assert IndexOf(data, data[0]) == 0;
    DifferentWords(u, v);
    assert FilterStep(data, 0, Scan([], None), Some(2), 0, Text(v), false) == Ok(Scan([], Some(1)));
    assert FilterUpTo(data, 1, Some(2), 0, Text(v), false) == Ok(Scan([], Some(1)));
    assert [] + [data[1]] == [[Text(v)]];
  }

  /** A single word is not kept by a non-strict filter for a different single word. */
  lemma DifferentWords(u: string, v: string)
    requires u != [] && v != [] && NoSpace(u) && NoSpace(v) && u != v
    ensures Text(u) != Text(v) && TokensMatch(Text(u), Text(v)) == Ok(false)
  {
    SplitLeadingWord(u, "");
    SplitLeadingWord(v, "");
    assert u + "" == u && v + "" == v;
    assert Split(u)[0] !in Split(v);
  }

  /** Two words separated by one space split into those two words. */
  lemma SplitTwoWords(u: string, v: string)
    requires u != [] && v != [] && NoSpace(u) && NoSpace(v)
    ensures Split(u + " " + v) == [u, v]
  {
    SplitLeadingWord(u, " " + v);
    SplitLeadingWord(v, "");
    assert u + " " + v == u + (" " + v) && (" " + v)[1..] == v && v + "" == v;
  }

  /**
   * The token-subset rule on words `a`, `b`, `c`: "a b" matches "b a c"
   * (order and extra tokens do not matter) but not "a" when `b` differs from
   * `a` (as "alpha beta" against "beta alpha gamma" and "alpha").
   */
  lemma TokenSubsetExample(a: string, b: string, c: string)
    requires a != [] && b != [] && c != [] && NoSpace(a) && NoSpace(b) && NoSpace(c) && a != b
    ensures Matches(Text(a + " " + b), Text(b + " " + a + " " + c), false)
    ensures !Matches(Text(a + " " + b), Text(a), false)
  {
    SplitTwoWords(a, b);
    SplitTwoWords(a, c);
    var rest := " " + (a + " " + c);
    SplitLeadingWord(b, rest);
    assert b + " " + a + " " + c == b + rest;
    assert rest[1..] == a + " " + c;
    assert Split(b + " " + a + " " + c) == [b, a, c];
    SplitLeadingWord(a, "");
    assert a + "" == a;
    assert a + " " + b != a by { assert |a + " " + b| != |a|; }
    assert b in Split(a + " " + b) && b !in Split(a);
  }

  // ---------------------------------------------------------------------
  // The class

  /** `XlArray` with its attributes as mutable fields. */
  class XlArray {
    var data: seq<seq<Value>>
    var col: string
    var row: Option<int>
    var len: int
    var empty: bool
    var header: seq<Value>
    var colNum: int
    var lastColNum: int
    var lastCol: string
    var range: string
    var name: string

    /** The attributes as one value. */
    function State(): Sheet
      reads this
    {
      Sheet(data, col, row, len, empty, header, colNum, lastColNum, lastCol, range, name)
    }

    predicate Valid()
      reads this
    {
      Consistent(State())
    }

    /** `XlArray(data, row, col)` when both label lookups succeed (see `NewXlArray` for the KeyError). */
    constructor (data0: seq<Value>, row0: Option<int>, col0: string)
      requires Build(data0, row0, col0).Ok?
      ensures State() == Build(data0, row0, col0).value
      ensures Valid()
    {
      var rows := Wrap(data0);
      var isEmpty := EmptyCheck(Grid(rows));
      data, col, row, len, empty := rows, col0, row0, |rows|, isEmpty;
      if !isEmpty {
        var h := rows[0];
        var excelRange := col0 + RowText(row0) + ":" + ConvertToAlpha(|h| + ConvertToNum(col0).value - 1).value
                          + IntToString(|rows|);
        var first := ConvertToNum(col0).value;
        var last := first + |h| - 1;
        header, colNum, lastColNum, lastCol, range, name := h, first, last, ConvertToAlpha(last).value, excelRange, "";
      } else {
        header, colNum, lastColNum, lastCol, range, name := [], 0, 0, "", "", "";
      }
      new;
      BuildSpec(rows, row0, col0);
    }

    /**
     * The rewrite loop of `remove`: each record is looked up again with
     * `list.index` and the first equal row is replaced by its cut.
     */
    method RewriteRows(cut: Cut)
      modifies this
      ensures data == RewriteAll(old(data), cut)
      ensures State() == old(State()).(data := data)
    {
      var k := 0;
      while k < |data|
        invariant |data| == |old(data)| && k <= |data|
        invariant data == Rewritten(old(data), k, cut)
        invariant State() == old(State()).(data := data)
      {
        var record := data[k];
        var index := IndexOf(data, record);
        assert Rewritten(old(data), k + 1, cut) == data[index := CutRow(record, cut)];
        data := data[index := CutRow(record, cut)];
        k := k + 1;
      }
    }

    /** One pass of `for excluded_col in columns`. */
    method RemoveColumn(excluded: string) returns (err: Option<Error>)
      modifies this
      ensures Step(State(), err) == RemoveOne(old(State()), excluded)
    {
      ghost var s := State();
      var found := ConvertToNum(excluded);
      if found.None? {
        return Some(KeyError);
      }
      var e := found.value;
      if !empty && e == colNum {
        RewriteRows(DropFirst);
        var next := ConvertToAlpha(colNum + 1);
        if next.None? {
          assert RemoveOne(s, excluded) == Step(s.(data := data), Some(KeyError));
          return Some(KeyError);
        }
        DefaultNumOfAlpha(colNum + 1);
        col := next.value;
        colNum := ConvertToNum(col).value;
        assert RemoveOne(s, excluded) == Step(State(), None);
      } else if !empty && e == lastColNum {
        RewriteRows(DropLast);
      } else if !empty && colNum < e < lastColNum {
        RewriteRows(Splice(e - 1));
      }
      err := None;
    }

    /**
     * `remove(columns)`: the new attributes are those of `RemoveAll`, and the
     * result is the KeyError that stopped it, if any.
     */
    method Remove(columns: seq<string>) returns (err: Option<Error>)
      modifies this
      ensures Step(State(), err) == RemoveAll(old(State()), columns)
      ensures old(Valid()) ==> Valid() && SameFrame(old(State()), State())
    {
      var i := 0;
      err := None;
      while i < |columns| && err.None?
        invariant i <= |columns|
        invariant err.None? ==> RemoveAll(old(State()), columns) == RemoveAll(State(), columns[i..])
        invariant err.Some? ==> RemoveAll(old(State()), columns) == Step(State(), err)
      {
        assert columns[i..][0] == columns[i] && columns[i..][1..] == columns[i + 1..];
        err := RemoveColumn(columns[i]);
        i := i + 1;
      }
      if err.None? {
        assert columns[i..] == [];
      }
      if old(Valid()) {
        RemoveAllKeeps(old(State()), columns);
      }
    }

    /**
     * `filter(column, value, strict)`: a fresh array with the attributes
     * `FilterSheet` gives, or the exception; this array is not modified.
     */
    method Filter(column: int, value: Value, strict: bool) returns (r: Result<XlArray>)
      ensures r.Ok? ==> fresh(r.value) && FilterSheet(State(), column, value, strict) == Ok(r.value.State())
      ensures r.Ok? ==> r.value.Valid()
      ensures r.Err? ==> FilterSheet(State(), column, value, strict) == Err(r.error)
    {
      var scan := ScanRecords(data, row, column, value, strict);
      if scan.Err? {
        return Err(scan.error);
      }
      FilterSheetOk(State(), column, value, strict);
      r := NewXlArray(AsValues(scan.value.kept), scan.value.anchor, col);
    }
  }

  /** The body of the filter loop for the record at position `k`. */
  method ScanRecord(data: seq<seq<Value>>, row: Option<int>, k: nat, filtered: seq<seq<Value>>, filterRow: Option<int>, column: int, value: Value, strict: bool)
    returns (r: Result<Scan>)
    requires k < |data|
    ensures r == FilterStep(data, k, Scan(filtered, filterRow), row, column, value, strict)
  {
    var record := data[k];
    var cell := PyIndex(record, column);
    if cell.None? {
      return Err(IndexError);
    }
    var kept, anchor := filtered, filterRow;
    if cell.value == value || !strict {
      if Falsy(anchor) {
        if row.None? {
          return Err(TypeError);
        }
        anchor := Some(IndexOf(data, record) + row.value - 1);
      }
      if cell.value == value {
        kept := kept + [record];
      } else {
        var keep := TokensMatch(cell.value, value);
        if keep.Err? {
          return Err(keep.error);
        }
        if keep.value {
          kept := kept + [record];
        }
      }
    }
    r := Ok(Scan(kept, anchor));
  }

  /** The loop of `filter` over every record: the kept records and `filter_row`, or the first exception. */
  method ScanRecords(data: seq<seq<Value>>, row: Option<int>, column: int, value: Value, strict: bool) returns (r: Result<Scan>)
    ensures r == FilterUpTo(data, |data|, row, column, value, strict)
  {
    r := Ok(Scan([], None));
    var k := 0;
    while k < |data| && r.Ok?
      invariant k <= |data|
      invariant r == FilterUpTo(data, k, row, column, value, strict)
    {
      FilterUpToNext(data, k, row, column, value, strict);
      r := ScanRecord(data, row, k, r.value.kept, r.value.anchor, column, value, strict);
      k := k + 1;
    }
    if r.Err? && k < |data| {
      FilterErrStays(data, k, row, column, value, strict);
    }
  }

  /** One more record: the loop state moves on by one `FilterStep`. */
  lemma FilterUpToNext(data: seq<seq<Value>>, k: nat, row: Option<int>, column: int, value: Value, strict: bool)
    requires k < |data| && FilterUpTo(data, k, row, column, value, strict).Ok?
    ensures FilterUpTo(data, k + 1, row, column, value, strict) ==
      FilterStep(data, k, FilterUpTo(data, k, row, column, value, strict).value, row, column, value, strict)
  {
  }

  /** `filter` hands the kept records and the anchor to a new array built at `self.col`. */
  lemma FilterSheetOk(s: Sheet, column: int, value: Value, strict: bool)
    requires FilterUpTo(s.data, |s.data|, s.row, column, value, strict).Ok?
    ensures var sc := FilterUpTo(s.data, |s.data|, s.row, column, value, strict).value;
      FilterSheet(s, column, value, strict) == BuildRows(sc.kept, sc.anchor, s.col) &&
      FilterSheet(s, column, value, strict) == Build(AsValues(sc.kept), sc.anchor, s.col)
  {
    var sc := FilterUpTo(s.data, |s.data|, s.row, column, value, strict).value;
    WrapSpec(AsValues(sc.kept));
    assert Wrap(AsValues(sc.kept)) == sc.kept;
  }

  /** The list of rows `filter` passes to the new array, each row a list value. */
  function AsValues(rows: seq<seq<Value>>): (vs: seq<Value>)
    ensures |vs| == |rows| && forall i :: 0 <= i < |rows| ==> vs[i] == List(rows[i])
  {
    seq(|rows|, i requires 0 <= i < |rows| => List(rows[i]))
  }

  /** Once the filter loop has raised, the later records do not change the outcome. */
  lemma {:induction false} FilterErrStays(data: seq<seq<Value>>, n: nat, row: Option<int>, column: int, value: Value, strict: bool)
    requires 0 < n <= |data| && FilterUpTo(data, n, row, column, value, strict).Err?
    ensures FilterUpTo(data, |data|, row, column, value, strict) == FilterUpTo(data, n, row, column, value, strict)
    decreases |data| - n
  {
    if n < |data| {
      FilterErrStays(data, n + 1, row, column, value, strict);
    }
  }

  /** `XlArray(data, row, col)` with the constructor's KeyError as a result. */
  method NewXlArray(data: seq<Value>, row: Option<int>, col: string) returns (r: Result<XlArray>)
    ensures r.Ok? ==> fresh(r.value) && Build(data, row, col) == Ok(r.value.State()) && r.value.Valid()
    ensures r.Err? ==> Build(data, row, col) == Err(r.error)
  {
    if Build(data, row, col).Err? {
      r := Err(Build(data, row, col).error);
    } else {
      var a := new XlArray(data, row, col);
      r := Ok(a);
    }
  }
}
