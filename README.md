# xl_data_tools core, modelled in Dafny

This project models the core of `xl_data_tools.py`, a helper library that
moves tabular data between Excel workbooks and Python nested lists. The
modelled parts are:

- the column-label tables built by `range_converter`;
- the recursive emptiness test `empty_check`;
- the `XlArray` class: its constructor, `remove` and `filter`;
- the part of `XlExtract.extract` that works on the values read from a sheet:
  - the scan that finds the used range inside the read window;
  - the range label built from that scan;
  - the purge of empty rows;
- the decisions `XlCreate.write` takes before each call into the workbook
  writer:
  - the destination columns and their offsets;
  - the date-column rule for body cells;
  - the column-width rule.

Files:

| file | contents |
|---|---|
| `Py.dfy` | Python behaviour the code relies on: `list.index`, negative subscripts, `max`, `str(int)`, `str.split()`, and the exceptions as an `Error` datatype |
| `Cells.dfy` | cell values (`None`, strings, integers, dates, nested lists) and `empty_check` |
| `ColumnCodec.dfy` | `range_converter`, with its loops as methods. It also gives closed forms of the default (length 3) tables `XlArray.convert_to_alpha` and `XlArray.convert_to_num`, proved equal to the dictionary lookups |
| `Arrays.dfy` | the attributes of an `XlArray` as a value (`Sheet`), with functions specifying the constructor, `remove` and `filter` and lemmas about them. The `XlArray` class has the same attributes as mutable fields; its methods run the original loops and are proved against those functions |
| `Extract.dfy` | the extent scan (`ScanExtent`), the range label, and the purge of empty rows (`PurgeEmptyRows`, which mutates an `XlArray`) |
| `Create.dfy` | the destination label and offset loops, the body-write loops and the width loop of `write`, each proved against a function, with lemmas about those functions |

Python exceptions (`KeyError`, `IndexError`, `TypeError`, `AttributeError`,
`ValueError`) are results (`Result.Err`), never preconditions.

The model follows the code in the places where the code's own documentation
or comments describe something else:

- The constructor's range ends on row `len(data)`, the row COUNT. It is not
  `row + len - 1`, so the `remove` docstring's array at F2 is F2:G2, not F2:G3
  (`Arrays.BuildExample`).
- With the default table length 3, the labels "AA" .. "ZZ" are listed twice,
  at 27 .. 702 and again at 703 .. 1378. `convert_to_num` keeps the later
  number. So:
  - `col_num` jumps from 26 to 703 when `remove` drops column "Z";
  - `remove([last_col])` does nothing when the last column is numbered
    27 .. 702 and `col_num` is not that label's later number. That holds
    whenever `col_num <= last_col_num`. When `col_num` has become the later
    number (an array from "Y" to "AA" after `remove(["Y", "Z"])`), it is taken
    for the first column and drops the first cell of every row
    (`Arrays.RemoveShiftedLastColumnExample`);
  - the destination offset of column k in `write` is its distance from the
    first column plus 676 for each of the two that is numbered 27 .. 702,
    counted positive for k and negative for the first column
    (`Create.OffsetByNumber`). It is exact when both lie on the same side of
    that band. With a first column up to "Z" it is 676 too large for the
    columns 27 .. 702. With a first column in 27 .. 702 it is 676 too small
    for the columns past 702, and may then be negative and count from the
    end of the row.
- The middle case of `remove` splices out the cell at absolute position
  `e - 1`, not the `e - col_num`-th cell of the row.
- Every row rewrite in `remove` goes through `list.index`. On rows of equal
  width every row is still cut once at its own position
  (`Arrays.RewriteRectangular`). On rows of unequal width a row that has
  already been cut can equal a later row, which `list.index` then finds
  first, so the later row is never cut and the earlier one is cut twice
  (`Arrays.RewriteRagged`).
- The filter's anchor row is `index + row - 1` of the first qualifying record.
  It is not that record's own row number. An anchor of 0 is falsy and is
  recomputed at the next qualifying record.
- Non-strict `filter` does not skip cells that are not strings: `.split()`
  raises `AttributeError`, which `except TypeError` does not catch.
- `empty_check` treats the empty string and 0 as empty, like `None` and `[]`.
  A date is treated as empty too, because iterating over it raises the
  `TypeError` that is caught.
- When the scan window holds no empty row, `row_len` ends one short of the
  window (the last row is left out).
- When either dimension reaches the window's edge, BOTH are set to the
  window's size.
- The purge of empty rows skips the row after each removed row, because the
  list is changed while it is being iterated.

## Model

| member | source | states |
|---|---|---|
| `Py.IndexOf` | xl_data_tools.py:375 | `list.index`: the result holds the element and no earlier position does |
| `Py.PyIndex` | xl_data_tools.py:408 | `record[column]` is defined exactly for `-len <= column < len`; negative subscripts count from the end |
| `Py.SeqMax` | xl_data_tools.py:509 | `max` of a non-empty list bounds every element and is one of them |
| `Py.DigitsRoundTrip` | xl_data_tools.py:333-335 | the decimal digits `str` writes for a natural number read back as that number |
| `Py.IntToString` | xl_data_tools.py:333-335 | `str(n)` is non-empty and starts with '-' exactly for negative `n` |
| `Py.Split` | xl_data_tools.py:420-422 | every token of `str.split()` is non-empty and holds no whitespace |
| `Py.SplitEmpty` | xl_data_tools.py:420-422 | `str.split()` gives no token exactly for an all-whitespace string |
| `Py.SplitLeadingWord` | xl_data_tools.py:420-422 | a word followed by nothing, or by whitespace and a rest, splits into that word followed by the rest's tokens |
| `Cells.EmptyCheckIffNoData` | xl_data_tools.py:85-103 | `empty_check(v)` holds exactly when no scalar reachable through nested lists is a non-empty string or a non-zero number |
| `Cells.EmptyCheck` | xl_data_tools.py:85-103 | `empty_check` itself: None, "", 0 and a date are empty, and a list is empty when every item is. Its meaning is stated by `EmptyCheckIffNoData` |
| `Cells.NoDataFlatten` | xl_data_tools.py:100 | `all(map(empty_check, lst))` over nested lists: the flattened leaves hold no data exactly when no part does |
| `Cells.EmptyCheckExamples` | xl_data_tools.py:93-103 | `None`, "", 0, `[]`, nested empty lists and a date are empty; " ", -1 and a list holding "x" are not |
| `ColumnCodec.ExtendOnce` | xl_data_tools.py:287-291 | one pass builds every existing label followed by each letter, label-major |
| `ColumnCodec.NumberLabels` | xl_data_tools.py:293-294 | `convert_to_alpha` numbers the labels from 1 in list order |
| `ColumnCodec.InvertNumbering` | xl_data_tools.py:295 | `convert_to_num` inverts `convert_to_alpha`, a later number overwriting an earlier one |
| `ColumnCodec.RangeConverter` | xl_data_tools.py:272-296 | both tables are those of the label list built tier by tier for the given length |
| `ColumnCodec.Labels` | xl_data_tools.py:278-292 | `alpha_extended`: the 26 letters, then, once per extra length, the list so far followed by each of its labels extended by every letter. Its size and order are stated by `LabelsSize`, `LabelsPrefix` and `Labels3At` |
| `ColumnCodec.NumMap` | xl_data_tools.py:295 | `convert_to_num`, the inverted numbering. Its keys and values are stated by `NumMapHas`, `NumMapValue` and `NumMapLast` |
| `ColumnCodec.AlphaMap` | xl_data_tools.py:293-294 | the keys are exactly 1 .. len and number `n` names the label at position `n - 1` |
| `ColumnCodec.NumMapHas` | xl_data_tools.py:295 | every listed label is a key of `convert_to_num` |
| `ColumnCodec.NumMapValue` | xl_data_tools.py:295 | the number of a label is a position holding that label |
| `ColumnCodec.NumMapLast` | xl_data_tools.py:295 | no later position holds the label: the LAST occurrence wins |
| `ColumnCodec.LabelsSize` | xl_data_tools.py:282-292 | length L gives 26 * 27^(L-1) labels |
| `ColumnCodec.SizesOfDefaultTiers` | xl_data_tools.py:282-292 | lengths 1, 2, 3 give 26, 702 and 18954 labels |
| `ColumnCodec.LabelsPrefix` | xl_data_tools.py:286-292 | a longer table starts with the shorter one |
| `ColumnCodec.DistinctUpTo2` | xl_data_tools.py:282-292 | up to length 2 no label is listed twice |
| `ColumnCodec.AlphaOfNum` | xl_data_tools.py:294-295 | for any length, `convert_to_alpha[convert_to_num[s]] == s` for every listed label |
| `ColumnCodec.NumOfAlphaUpTo2` | xl_data_tools.py:294-295 | up to length 2, `convert_to_num[convert_to_alpha[n]] == n` |
| `ColumnCodec.FirstTier` | xl_data_tools.py:279-280 | numbers 1 .. 26 are "A" .. "Z" |
| `ColumnCodec.SecondTier` | xl_data_tools.py:284-292 | number 27 + 26a + b is the two-letter label (a, b) |
| `ColumnCodec.Labels3At` | xl_data_tools.py:286-292 | position i of the default table is its closed-form label |
| `ColumnCodec.PositionOfLabel` | xl_data_tools.py:295 | the closed-form position of the label at i is the last one, i + 676 for the duplicated two-letter labels |
| `ColumnCodec.LabelOfPosition` | xl_data_tools.py:295 | a closed-form position names a label that reads back as itself |
| `ColumnCodec.ConvertToAlpha` | xl_data_tools.py:305-306 | `XlArray.convert_to_alpha[n]` is defined exactly for 1 .. 18954 |
| `ColumnCodec.ConvertToNum` | xl_data_tools.py:305-307 | `XlArray.convert_to_num[s]` is defined exactly for one to three upper-case letters, with a number in 1 .. 18954 |
| `ColumnCodec.AlphaLookupIsTable` | xl_data_tools.py:305-306 | the closed form equals the lookup in the table `range_converter()` builds |
| `ColumnCodec.NumLookupIsTable` | xl_data_tools.py:305-307 | the closed form equals the lookup in the inverted table |
| `ColumnCodec.NumOfUnlistedLabel` | xl_data_tools.py:295 | a string that is not a label is no key |
| `ColumnCodec.NumOfListedLabel` | xl_data_tools.py:295 | a label's number is one past its last position |
| `ColumnCodec.DefaultAlphaOfNum` | xl_data_tools.py:305-307 | label to number to label is the identity |
| `ColumnCodec.DefaultNumOfAlpha` | xl_data_tools.py:305-307 | number to label to number adds 676 exactly for 27 .. 702 and is the identity elsewhere |
| `ColumnCodec.TwoLetterDuplicated` | xl_data_tools.py:286-295 | each two-letter label is numbers 27 + 26a + b and 703 + 26a + b, and looks up as the latter |
| `ColumnCodec.TierOrder` | xl_data_tools.py:284-285 | "Z" is followed by "AA", "AZ" by "BA"; "ZZ" is 702 |
| `ColumnCodec.DuplicateAtLength3` | xl_data_tools.py:286-295 | "AA" is 27 and 703; `convert_to_num["AA"]` is 703, "A" is 1 and "AAA" is 1379 |
| `Arrays.RowText` | xl_data_tools.py:333 | `str(row)` is empty exactly for the empty-string placeholder row |
| `Arrays.Wrap` | xl_data_tools.py:320-322 | a list of rows keeps its length; a list with some non-list element becomes `[data]` |
| `Arrays.WrapSpec` | xl_data_tools.py:320-322 | a flat row is wrapped into one row; a list of rows is kept, and `empty_check` sees the original list |
| `Arrays.BuildSpec` | xl_data_tools.py:309-342 | the constructor raises KeyError exactly when a label lookup fails on a non-empty array. Otherwise the data are the wrapped rows, the header is row 0, `last_col_num = col_num + len(header) - 1`, the labels agree with the tables, and the range ends on row `len` |
| `Arrays.BuildRows` | xl_data_tools.py:323-342 | the attributes the constructor sets from the wrapped rows. They are stated by `BuildSpec` |
| `Arrays.Build` | xl_data_tools.py:309-342 | the constructor: wrap the data, then set the attributes. It is stated by `WrapSpec` and `BuildSpec` |
| `Arrays.BuildWidth` | xl_data_tools.py:332-339 | rows of equal width are exactly as wide as `col_num .. last_col_num` |
| `Arrays.BuildExample` | xl_data_tools.py:354-357 | [[a, b], [c, d]] at (2, "F") has `col_num` 6, `last_col` "G" and range F2:G2 |
| `Arrays.CutRow` | xl_data_tools.py:376-389 | `record[1:]` and `record[:-1]` drop one cell of a non-empty row; the splice drops one exactly when its position is inside the row |
| `Arrays.RewriteRectangular` | xl_data_tools.py:374-376 | on rows of equal width, the first k passes of the `list.index` rewrite cut exactly the first k rows |
| `Arrays.StepOnPrefix` | xl_data_tools.py:374-376 | one pass on such rows cuts the next row in place |
| `Arrays.RewriteAllRectangular` | xl_data_tools.py:374-389 | on rows of equal width, every row ends up cut at its own position |
| `Arrays.RewriteRagged` | xl_data_tools.py:369-376 | [[a, b], [b]] without its first column becomes [[], [b]]: the second row is rewritten at the first |
| `Arrays.RemoveOneKeeps` | xl_data_tools.py:371-391 | one label keeps the row count, `row`, `len`, `empty`, header, last column, range and name, and keeps `col`/`col_num` consistent. It raises KeyError exactly for an unknown label, or for dropping the first column when that column is "ZZZ" (number 18954, which has no successor) |
| `Arrays.RemoveOne` | xl_data_tools.py:371-391 | one pass of `for excluded_col in columns`: KeyError for an unknown label, then the first, last and middle cases. It is stated by `RemoveOneKeeps` and the case lemmas |
| `Arrays.RemoveAll` | xl_data_tools.py:348-392 | `remove(columns)`: the labels in turn, stopping at the first KeyError. It is stated by `RemoveAllKeeps` |
| `Arrays.RemoveAllKeeps` | xl_data_tools.py:348-392 | a whole `remove` call keeps the same attributes and consistency, and can only raise KeyError |
| `Arrays.RemoveUnknownLabel` | xl_data_tools.py:372 | an unknown label raises KeyError and changes nothing, even on an empty array |
| `Arrays.RemoveOutside` | xl_data_tools.py:390-391 | a label outside the array's columns, or any label on an empty array, changes nothing |
| `Arrays.RemoveFirstColumn` | xl_data_tools.py:373-378 | dropping the first column cuts every row's first cell; `col` becomes the next label and `col_num` its looked-up number |
| `Arrays.RemoveLastColumn` | xl_data_tools.py:379-383 | dropping the last column cuts every row's last cell but leaves `last_col_num`, so the rows no longer match the range |
| `Arrays.RemoveTwoLetterLastColumn` | xl_data_tools.py:371-391 | a last column numbered 27 .. 702 looks up 676 higher. Removing it changes nothing unless `col_num` is that higher number, and then it does exactly what removing the first column does |
| `Arrays.RemoveShiftedLastColumnExample` | xl_data_tools.py:371-389 | [[a, a, a]] at "Y" ends in "AA" (27). After `remove(["Y", "Z"])` it starts at "AA" numbered 703, and `remove(["AA"])` leaves [[]] with `col` "AB" |
| `Arrays.RemoveShiftedStep` | xl_data_tools.py:373-378 | on a one-row array, removing the first column drops the row's first cell and moves `col` and `col_num` to the next label |
| `Arrays.RemoveShiftedFirstColumn` | xl_data_tools.py:373-378 | with `col` and `last_col` both "AA" (703 and 27), removing "AA" takes the first-column case |
| `Arrays.RemoveMiddleColumn` | xl_data_tools.py:384-389 | an inner column splices out absolute position `e - 1` of every row and keeps `col` |
| `Arrays.RemoveExample` | xl_data_tools.py:354-363 | the docstring's `remove(["G"])` on [[a, b], [c, d]] at F2 leaves [[a], [c]] |
| `Arrays.RemoveMiddleExample` | xl_data_tools.py:384-389 | removing "C" from [[a, b, c]] at B drops `c`, the cell of column D |
| `Arrays.Anchored` | xl_data_tools.py:409-416 | an anchor update that does not raise always leaves a row number |
| `Arrays.TokensMatchIsMatches` | xl_data_tools.py:417-425 | when the `try` block does not raise, it keeps the record exactly when every token of the cell is a token of `value` |
| `Arrays.AnchorStep` | xl_data_tools.py:409-416 | only a qualifying record that meets a falsy anchor sets it, to its `index + row - 1` |
| `Arrays.FilterStepOk` | xl_data_tools.py:407-425 | one record raises exactly when it lacks the column, fails the `try` block, or qualifies while the row is the placeholder and the anchor is falsy |
| `Arrays.FilterStep` | xl_data_tools.py:407-425 | one pass of the filter loop over a record. It is stated by `FilterStepOk`, `FilterStepKept` and `AnchorStep` |
| `Arrays.FilterUpTo` | xl_data_tools.py:406-425 | the filter loop over the first n records. It is stated by `FilterUpToOk`, `FilterUpToKept` and `FilterUpToAnchor` |
| `Arrays.FilterSheet` | xl_data_tools.py:394-427 | `filter`: the loop, then a new array of the kept records. It is stated by `FilterResult` |
| `Arrays.FilterStepKept` | xl_data_tools.py:407-425 | one record is appended exactly when its cell matches |
| `Arrays.FilterUpToOk` | xl_data_tools.py:407-425 | the loop raises exactly when some record lacks the column or fails the `try` block, or when the row is the placeholder and some record qualifies |
| `Arrays.FilterAnchorNone` | xl_data_tools.py:406-416 | `filter_row` stays the placeholder exactly while no record has qualified |
| `Arrays.FilterUpToKept` | xl_data_tools.py:407-425 | the kept records are exactly the matching ones, in source order |
| `Arrays.FilterUpToAnchor` | xl_data_tools.py:409-416 | the anchor is `index + row - 1` of a qualifying record, and every qualifying record before it gives 0 |
| `Arrays.FilterZeroAnchor` | xl_data_tools.py:409-416 | an anchor of 0 means every qualifying record so far gives 0 |
| `Arrays.IndexOfDistinct` | xl_data_tools.py:369-370 | with pairwise different rows, `list.index` finds a row at its own position |
| `Arrays.FilterAnchorDistinct` | xl_data_tools.py:409-416 | with pairwise different rows and row at least 2, the anchor is `k + row - 1` for the first qualifying record k |
| `Arrays.FilterResult` | xl_data_tools.py:394-427 | a successful filter has every record holding the column. The new array holds exactly the matching records in order, keeps `self.col`, and has the placeholder row exactly when nothing qualified |
| `Arrays.FilterStrict` | xl_data_tools.py:407-412 | a strict filter with a row number raises nothing when every record has the column, and matches exactly the equal cells |
| `Arrays.TokenlessCellMatches` | xl_data_tools.py:420-423 | a whitespace-only cell is kept by a non-strict filter whatever the value |
| `Arrays.FilterNonTextRaises` | xl_data_tools.py:417-425 | in non-strict mode a non-equal cell that is not a string makes the filter raise |
| `Arrays.FilterStrictExample` | xl_data_tools.py:407-412 | filtering X, Y, X for X from row 2 keeps both X records with anchor 1 |
| `Arrays.FilterStrictRowOneExample` | xl_data_tools.py:409-411 | the same filter from row 1 gets anchor 0, which is falsy, and recomputes it as 2 |
| `Arrays.FilterLooseAnchorExample` | xl_data_tools.py:413-425 | in non-strict mode a record that is not kept still sets the anchor |
| `Arrays.DifferentWords` | xl_data_tools.py:420-423 | a single word is not kept by a non-strict filter for a different single word |
| `Arrays.SplitTwoWords` | xl_data_tools.py:420-422 | two words joined by a space split into those two words |
| `Arrays.TokenSubsetExample` | xl_data_tools.py:418-423 | "a b" matches "b a c" (order and extra tokens do not matter) but not "a" |
| `Arrays.XlArray.constructor` | xl_data_tools.py:309-342 | the fields are the attributes the constructor specification gives, and they are consistent |
| `Arrays.NewXlArray` | xl_data_tools.py:309-342 | a fresh consistent `XlArray`, or the constructor's KeyError |
| `Arrays.XlArray.RewriteRows` | xl_data_tools.py:374-389 | the rewrite loop leaves the rows of the `list.index` rewrite and changes nothing else |
| `Arrays.XlArray.RemoveColumn` | xl_data_tools.py:372-391 | one label changes the fields and raises as the one-label specification says |
| `Arrays.XlArray.Remove` | xl_data_tools.py:348-392 | `remove(columns)` follows the labels in turn and stops at the first KeyError. A consistent array stays consistent, with the same frame |
| `Arrays.ScanRecord` | xl_data_tools.py:407-425 | the loop body acts on one record as the one-record step specifies |
| `Arrays.ScanRecords` | xl_data_tools.py:406-425 | the loop over every record leaves the kept records and `filter_row` of the filter specification, or its first exception |
| `Arrays.XlArray.Filter` | xl_data_tools.py:394-427 | a fresh, consistent array with the attributes the filter specification gives, or its exception |
| `Arrays.FilterSheetOk` | xl_data_tools.py:427 | the result is built from the kept records and the anchor at `self.col` |
| `Arrays.FilterErrStays` | xl_data_tools.py:407-425 | once a record raises, the later records do not change the outcome |
| `Extract.FirstEmpty` | xl_data_tools.py:497-500 | the rows before it are not empty and the row at it, if any, is |
| `Extract.TrailingStart` | xl_data_tools.py:503-508 | every cell from it on is empty and the cell before it is not |
| `Extract.SuffixEmpty` | xl_data_tools.py:506 | `empty_check(row[j:])` holds exactly from the trailing run of empty cells on |
| `Extract.ScanExtent` | xl_data_tools.py:495-509 | the scan loop computes `(col_len, row_len)` as the extent specification gives, or ValueError from `max` of nothing |
| `Extract.ExtentOf` | xl_data_tools.py:495-509 | the `(col_len, row_len)` the scan computes, or ValueError. It is stated by `ExtentRows` and `ExtentColumns` |
| `Extract.CountColumns` | xl_data_tools.py:503-508 | the inner search stops at the start of the trailing run of empty cells |
| `Extract.ExtentRows` | xl_data_tools.py:496-502 | no row before `row_len` is empty; the row at `row_len` is empty, unless the window has no empty row and `row_len` is its last index |
| `Extract.TrailingStartPositive` | xl_data_tools.py:503-508 | a row with data has a count of at least 1, with data in its last counted cell |
| `Extract.WidthsBound` | xl_data_tools.py:509 | no scanned row has data right of the largest count |
| `Extract.WidthsAttained` | xl_data_tools.py:509 | some scanned row has data in the column of the largest count |
| `Extract.ExtentColumns` | xl_data_tools.py:503-509 | `col_len` is at least 1; no scanned row has data right of it; some scanned row has data in column `col_len` |
| `Extract.ScanStopsAtEmptyRow` | xl_data_tools.py:497-500 | rows 0-2 with data and row 3 empty give `row_len` 3, whatever follows |
| `Extract.CornerWithinWindow` | xl_data_tools.py:511-516 | the corner never leaves the window: the extent itself inside it, both window sizes otherwise |
| `Extract.SheetRangeSpec` | xl_data_tools.py:511-517 | the range label raises KeyError exactly when the corner column is outside 1 .. 18954. Otherwise it is "A1:" + label + row, and the label reads back 676 high for 27 .. 702 |
| `Extract.SheetRange` | xl_data_tools.py:511-517 | the range label from the clamped corner. It is stated by `SheetRangeSpec` and `CornerWithinWindow` |
| `Extract.SheetRangeExample` | xl_data_tools.py:471-472 | a 3-column, 10-row extent in the default window reads A1:C10 |
| `Extract.RemoveFirst` | xl_data_tools.py:522 | `list.remove` of a present row shortens the list by one |
| `Extract.RemoveEmptyRowKeeps` | xl_data_tools.py:520-522 | removing an empty row keeps the rows with data, in order |
| `Extract.PurgeKeepsData` | xl_data_tools.py:520-522 | the purge keeps every row with data, in order |
| `Extract.PurgeFrom` | xl_data_tools.py:520-522 | the purge loop from position i, reading the current list. It is stated by `PurgeKeepsData` and `PurgeRemovesOnlyEmpty` |
| `Extract.RemoveFirstMultiset` | xl_data_tools.py:522 | `list.remove` takes exactly one copy out of the multiset of rows |
| `Extract.PurgeRemovesOnlyEmpty` | xl_data_tools.py:520-522 | the purge only removes rows, and every removed row is empty |
| `Extract.PurgeSkipsExample` | xl_data_tools.py:520-522 | [E, E, X] with E empty becomes [E, X]: the second empty row is skipped |
| `Extract.PurgeEmptyRows` | xl_data_tools.py:519-522 | the loop leaves the rows the purge specification gives and changes no other attribute. `len` goes stale, so a consistent array stays consistent exactly when no row was removed |
| `Extract.PurgeShortens` | xl_data_tools.py:520-522 | the purge leaves the rows as they are or makes the list shorter |
| `Create.LabelsBetween` | xl_data_tools.py:615-616 | one label per column number, each the table's label, with KeyError exactly when a number in a non-empty range is outside 1 .. 18954 |
| `Create.DestinationLabels` | xl_data_tools.py:611-616 | the loop builds `all_columns_xl` as the labels specification gives |
| `Create.ColumnOffsets` | xl_data_tools.py:617-619 | `all_columns_py` has exactly the destination labels as keys, each mapped to its number minus the first label's number |
| `Create.DestinationColumns` | xl_data_tools.py:611-619 | both loops together: the labels and, for each, its offset, or KeyError |
| `Create.LabelsReadBack` | xl_data_tools.py:616-619 | every destination label looks up to a number |
| `Create.LabelsBetweenUnique` | xl_data_tools.py:615-616 | labels agreeing with `convert_to_alpha` position by position are the destination labels |
| `Create.OffsetByNumber` | xl_data_tools.py:617-619 | the offset of column k is its distance from the first column plus the 676 jump of the duplicated labels; exact when both lie on the same side |
| `Create.OffsetsAcrossZ` | xl_data_tools.py:615-619 | columns Y .. AA get offsets 0, 1 and 678 |
| `Create.CellWriteSpec` | xl_data_tools.py:623-634 | a date-column cell is written with the date format, as a datetime exactly when it is a date and as "NO DATE" otherwise; other cells are written unchanged with the wrap format |
| `Create.CellWrite` | xl_data_tools.py:623-634 | the write for one body cell. It is stated by `CellWriteSpec` |
| `Create.WriteBody` | xl_data_tools.py:620-634 | the body loops give the writes the body specification gives, or the first KeyError or IndexError |
| `Create.RowWritesErr` | xl_data_tools.py:621-634 | a failing column makes its row fail the same way |
| `Create.BodyWritesErrFrom` | xl_data_tools.py:620-634 | a failing row makes the whole body fail the same way |
| `Create.BodyWritesErr` | xl_data_tools.py:620-634 | the loops stop at the first failing cell with that cell's error |
| `Create.BodyWritesSpec` | xl_data_tools.py:620-634 | one write per body row and destination column, each obeying the date rule. Write `(row_py - 1) * len(all_columns_xl) + i` is that of row `row_py` and column `all_columns_xl[i]`: the cell `data.data[row_py][col_py]` at that column's offset, under that column's date rule |
| `Create.BodyIndexBound` | xl_data_tools.py:620-621 | the writes of the rows before row `m` come before those of row `m` |
| `Create.RowWritesSpec` | xl_data_tools.py:621-634 | one write per destination column, in order, each on its row and obeying the date rule. Write `i` is that of the cell at column `all_columns_xl[i]`'s offset, under that column's date rule |
| `Create.RowWrites` | xl_data_tools.py:621-634 | the inner loop over the destination columns of one body row. It is stated by `RowWritesSpec` and `RowWritesErr` |
| `Create.BodyWrites` | xl_data_tools.py:620-634 | the body loops over rows 1 .. len - 1. It is stated by `BodyWritesSpec` and `BodyWritesErr` |
| `Create.ColumnWidth` | xl_data_tools.py:642-647 | a width always lies between 16 and 50 |
| `Create.ColumnWidthFits` | xl_data_tools.py:642-647 | the width is the least value of at least 16 that fits every cell length capped at 50 |
| `Create.BodyLengths` | xl_data_tools.py:640-641 | one length per body row (the header row is skipped), length `i` being the entry of row `i + 1` at `col_py`; IndexError is the only failure |
| `Create.SetWidths` | xl_data_tools.py:637-648 | the width loop gives the settings the width specification gives, or the first error |
| `Create.WidthSettingsErr` | xl_data_tools.py:637-648 | once a column fails, the later columns do not change the outcome |
| `Create.WidthSettingsSpec` | xl_data_tools.py:637-648 | every destination column gets exactly one width, in order, between 16 and 50: the width rule applied to the lengths of that column's body cells |
| `Create.WidthSettings` | xl_data_tools.py:637-648 | the width loop as (label, width) pairs. It is stated by `WidthSettingsSpec` and `WidthSettingsErr` |
| `Create.ColumnWidthExamples` | xl_data_tools.py:642-647 | no body rows or short cells give 16; lengths 20 and 35 give 35; a length of 80 gives 50 |

## Left out

- Everything that talks to Excel, the file system, e-mail or the process
  table is left out. This covers `xlwings`, `xlsxwriter`, `hide_excel`,
  `terminate_excel`, `mod_date`, the file search and the mail helper. The
  values a sheet read returns are a parameter (`raw` in `Extract`). The
  `sht.write`/`write_datetime` and `set_column` calls are results (`Write`
  records and (label, width) pairs).
- `XlExtract.extract` around the scan is left out: the sheet list and
  `exclude_sheets`, the second read of the computed range, the per-sheet
  `remove(x_columns)` with its `except TypeError`, and the returned pairs.
  `XlArray.remove` itself is modelled.
- `XlCreate.write` header row, `add_table` and table name are left out. So is
  the `custom_width` branch; the width rule models the branch without custom
  widths.
- `XlArray.empty(row_as_list)` is left out: it is shadowed by the `empty`
  attribute the constructor sets, so it cannot be called on an instance.
- Cell values are `None`, strings, integers, dates and nested lists. Floats
  and booleans are left out. Dates carry an opaque stamp.
  - `Create.BodyLengths`: the lengths of `str(cell)` are given as a parameter,
    since `str` of floats and dates is not modelled.
- The row argument is an integer or the empty-string placeholder that `filter`
  passes. A row passed as a string such as "2" is left out, as is a string
  passed as `columns` to `remove` (it would be iterated letter by letter).
- Python's `==` between cells is structural equality of the `Value` datatype.
  Cross-type equalities such as `1 == 1.0` or `True == 1` are not modelled.
- The in-place list mutation in `remove` and in the purge is modelled by
  reassigning a `seq` field of `XlArray`. Aliasing of a row list between two
  arrays is not modelled.
