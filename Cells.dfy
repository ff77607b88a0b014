/**
 * Cell values as the spreadsheet engine hands them over, and the recursive
 * emptiness test `empty_check` that the whole tool uses to decide whether a
 * cell, a row or a grid holds any data.
 */
module Cells {

  /**
   * A cell value or a (nested) list of them. `Blank` is Python's `None`;
   * numbers are integers (only zero versus non-zero matters here); a date
   * carries an opaque time stamp.
   */
  datatype Value = Blank | Text(s: string) | Num(n: int) | Date(stamp: int) | List(items: seq<Value>)

  /**
   * `empty_check`: every falsy value (`None`, `""`, `0`, `[]`) is empty; a
   * non-empty string or a non-zero number is not; a list is empty when all of
   * its elements are; anything else (a date) is not iterable, raises
   * `TypeError` inside the check, and is caught as empty.
   */
  predicate EmptyCheck(v: Value)
  {
    match v
    case Blank => true
    case Text(s) => s == ""
    case Num(n) => n == 0
    case Date(_) => true
    case List(items) => forall i :: 0 <= i < |items| ==> EmptyCheck(items[i])
  }

  /** A row (a Python list of cells) as `empty_check` sees it. */
  predicate EmptyRow(row: seq<Value>)
  {
    EmptyCheck(List(row))
  }

  /** A scalar that holds real data: a non-empty string or a non-zero number. */
  predicate CarriesData(x: Value)
  {
    (x.Text? && x.s != "") || (x.Num? && x.n != 0)
  }

  predicate NoData(xs: seq<Value>)
  {
    forall k :: 0 <= k < |xs| ==> !CarriesData(xs[k])
  }

  function Flatten(ls: seq<seq<Value>>): (r: seq<Value>)
  {
    if ls == [] then [] else ls[0] + Flatten(ls[1..])
  }

  /** The scalars reachable from `v` through nested lists, left to right. */
  function Leaves(v: Value): (r: seq<Value>)
    ensures forall k :: 0 <= k < |r| ==> !r[k].List?
  {
    match v
    case List(items) => FlattenLeaves(seq(|items|, i requires 0 <= i < |items| => Leaves(items[i])))
    case _ => [v]
  }

  function FlattenLeaves(ls: seq<seq<Value>>): (r: seq<Value>)
    requires forall i, k :: 0 <= i < |ls| && 0 <= k < |ls[i]| ==> !ls[i][k].List?
    ensures r == Flatten(ls)
    ensures forall k :: 0 <= k < |r| ==> !r[k].List?
  {
    if ls == [] then [] else ls[0] + FlattenLeaves(ls[1..])
  }

  lemma {:induction false} NoDataFlatten(ls: seq<seq<Value>>)
    ensures NoData(Flatten(ls)) <==> forall i :: 0 <= i < |ls| ==> NoData(ls[i])
  {
    if ls != [] {
      NoDataFlatten(ls[1..]);
      var f := Flatten(ls);
      assert f == ls[0] + Flatten(ls[1..]);
      if NoData(f) {
        forall i | 0 <= i < |ls| ensures NoData(ls[i]) {
          if i == 0 {
            forall k | 0 <= k < |ls[0]| ensures !CarriesData(ls[0][k]) { assert f[k] == ls[0][k]; }
          } else {
            assert ls[i] == ls[1..][i - 1];
            assert NoData(Flatten(ls[1..])) by {
              forall k | 0 <= k < |Flatten(ls[1..])| ensures !CarriesData(Flatten(ls[1..])[k]) {
                assert f[|ls[0]| + k] == Flatten(ls[1..])[k];
              }
            }
          }
        }
      } else {
        var k :| 0 <= k < |f| && CarriesData(f[k]);
        if k < |ls[0]| {
          assert f[k] == ls[0][k];
          assert !NoData(ls[0]);
        } else {
          assert f[k] == Flatten(ls[1..])[k - |ls[0]|];
          var i :| 0 <= i < |ls[1..]| && !NoData(ls[1..][i]);
          assert !NoData(ls[i + 1]);
        }
      }
    }
  }

  /**
   * Independent reading of `empty_check`: a value is empty exactly when no
   * scalar reachable from it is a non-empty string or a non-zero number.
   */
  lemma {:induction false} EmptyCheckIffNoData(v: Value)
    ensures EmptyCheck(v) <==> NoData(Leaves(v))
  {
    match v
    case List(items) =>
      var ls := seq(|items|, i requires 0 <= i < |items| => Leaves(items[i]));
      forall i | 0 <= i < |items| ensures EmptyCheck(items[i]) <==> NoData(ls[i]) {
        EmptyCheckIffNoData(items[i]);
      }
      NoDataFlatten(ls);
    case _ =>
      assert Leaves(v) == [v];
      assert NoData([v]) <==> !CarriesData([v][0]);
  }

  /** The cases singled out by the function's documentation and its callers. */
  lemma EmptyCheckExamples()
    ensures EmptyCheck(Blank) && EmptyCheck(Text("")) && EmptyCheck(Num(0)) && EmptyCheck(List([]))
    ensures EmptyCheck(List([List([]), List([Blank])])) && EmptyCheck(List([List([Text("")])]))
    ensures EmptyCheck(Date(0))
    ensures !EmptyCheck(Text(" ")) && !EmptyCheck(Num(-1)) && !EmptyCheck(List([Blank, Text("x")]))
  {
    assert [Blank, Text("x")][1] == Text("x");
  }
}
