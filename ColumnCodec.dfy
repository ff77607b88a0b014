/**
 * `range_converter`: the two lookup tables between column numbers and
 * spreadsheet column labels ("A" .. "Z", "AA" .. "ZZ", ...).
 *
 * The table is built tier by tier: each pass appends, for EVERY label made so
 * far, that label followed by each letter. From the third tier on this
 * re-appends labels that are already present (the single letters extended a
 * second time give "AA" .. "ZZ" again), and the label-to-number table keeps
 * the LAST position of each label. With the default length 3 that XlArray
 * uses, "AA" is number 27 one way and 703 the other.
 */
module ColumnCodec {
  import opened Py

  function Letter(i: int): char
    requires 0 <= i < 26
  {
    (65 + i) as char
  }

  /** `string.ascii_uppercase`. */
  const Uppercase: string := "ABCDEFGHIJKLMNOPQRSTUVWXYZ"

  /** The letter at position `i` is the `i`-th code point after 'A'. */
  lemma UppercaseAt()
    ensures |Uppercase| == 26
    ensures forall i :: 0 <= i < 26 ==> Uppercase[i] == Letter(i)
  {
    assert Uppercase == seq(26, Letter);
  }

  /** The length of the label tables `range_converter()` builds by default. */
  const DefaultLength: int := 3

  predicate IsUpper(c: char)
  {
    'A' <= c <= 'Z'
  }

  function LetterIndex(c: char): (i: nat)
    requires IsUpper(c)
    ensures i < 26 && Letter(i) == c
  {
    c as int - 65
  }

  function Label1(a: nat): string
    requires a < 26
  {
    [Letter(a)]
  }

  function Label2(a: nat, b: nat): string
    requires a < 26 && b < 26
  {
    [Letter(a), Letter(b)]
  }

  function Label3(a: nat, b: nat, c: nat): string
    requires a < 26 && b < 26 && c < 26
  {
    [Letter(a), Letter(b), Letter(c)]
  }

  /** The 26 one-letter labels, `list(string.ascii_uppercase)`. */
  function Singles(): (r: seq<string>)
    ensures |r| == 26
  {
    seq(26, i requires 0 <= i < 26 => [Letter(i)])
  }

  lemma DivMod26(x: int, q: int, r: int)
    requires x == 26 * q + r && 0 <= r < 26
    ensures x / 26 == q && x % 26 == r
  {
  }

  /** `new_sequences` of one pass: each existing label followed by each letter, label-major. */
  function Extend(labels: seq<string>): (r: seq<string>)
    ensures |r| == 26 * |labels|
  {
    seq(26 * |labels|, q requires 0 <= q < 26 * |labels| => labels[q / 26] + [Letter(q % 26)])
  }

  /** `alpha_extended` after the loop, for `xl_col_length == colLength`. */
  function Labels(colLength: int): (r: seq<string>)
    decreases colLength
  {
    if colLength <= 1 then Singles()
    else
      var shorter := Labels(colLength - 1);
      shorter + Extend(shorter)
  }

  /** `convert_to_alpha`: number `n` maps to the label at position `n - 1`. */
  function AlphaMap(labels: seq<string>): (m: map<int, string>)
    ensures forall n :: n in m <==> 1 <= n <= |labels|
    ensures forall n :: 1 <= n <= |labels| ==> m[n] == labels[n - 1]
  {
    if labels == [] then map[]
    else AlphaMap(labels[..|labels| - 1])[|labels| := labels[|labels| - 1]]
  }

  /**
   * `convert_to_num`, built from `convert_to_alpha.items()` in key order, so
   * that a label listed twice keeps the number of its last position.
   */
  function NumMap(labels: seq<string>): map<string, int>
  {
    if labels == [] then map[]
    else NumMap(labels[..|labels| - 1])[labels[|labels| - 1] := |labels|]
  }

  /** Every label in the list is a key of `convert_to_num`. */
  lemma {:induction false} NumMapHas(labels: seq<string>, i: int)
    requires 0 <= i < |labels|
    ensures labels[i] in NumMap(labels)
  {
    var n := |labels|;
    if i < n - 1 {
      NumMapHas(labels[..n - 1], i);
    }
  }

  /** The number stored for a key lies in range and names that key again. */
  lemma {:induction false} NumMapValue(labels: seq<string>, s: string)
    requires s in NumMap(labels)
    ensures 1 <= NumMap(labels)[s] <= |labels| && labels[NumMap(labels)[s] - 1] == s
  {
    var n := |labels|;
    assert labels != [];
    if labels[n - 1] != s {
      var init := labels[..n - 1];
      NumMapValue(init, s);
      assert labels[NumMap(init)[s] - 1] == init[NumMap(init)[s] - 1];
    }
  }

  /** The number `convert_to_num` keeps for a label is that of its last copy. */
  lemma {:induction false} NumMapLast(labels: seq<string>, s: string, j: int)
    requires 0 <= j < |labels| && s in NumMap(labels) && NumMap(labels)[s] <= j
    ensures labels[j] != s
  {
    var n := |labels|;
    if j < n - 1 {
      var init := labels[..n - 1];
      assert labels[n - 1] != s;
      NumMapLast(init, s, j);
      assert labels[j] == init[j];
    }
  }

  /** One pass of the `k` loop: every label so far followed by every letter. */
  method ExtendOnce(alphaExtended: seq<string>) returns (newSequences: seq<string>)
    ensures newSequences == Extend(alphaExtended)
  {
    UppercaseAt();
    newSequences := [];
    var i := 0;
    while i < |alphaExtended|
      invariant 0 <= i <= |alphaExtended|
      invariant |newSequences| == 26 * i
      invariant forall q :: 0 <= q < 26 * i ==> newSequences[q] == alphaExtended[q / 26] + [Letter(q % 26)]
    {
      var j := 0;
      while j < |Uppercase|
        invariant 0 <= j <= 26
        invariant |newSequences| == 26 * i + j
        invariant forall q :: 0 <= q < 26 * i + j ==> newSequences[q] == alphaExtended[q / 26] + [Letter(q % 26)]
      {
        DivMod26(26 * i + j, i, j);
        newSequences := newSequences + [alphaExtended[i] + [Uppercase[j]]];
        j := j + 1;
      }
      i := i + 1;
    }
  }

  /** `{x: y for x, y in zip(range(1, len(labels) + 1), labels)}`. */
  method NumberLabels(labels: seq<string>) returns (toAlpha: map<int, string>)
    ensures toAlpha == AlphaMap(labels)
  {
    toAlpha := map[];
    var n := 1;
    while n <= |labels|
      invariant 1 <= n <= |labels| + 1
      invariant toAlpha == AlphaMap(labels[..n - 1])
    {
      assert labels[..n][..n - 1] == labels[..n - 1];
      toAlpha := toAlpha[n := labels[n - 1]];
      n := n + 1;
    }
    assert labels[..n - 1] == labels;
  }

  /** `{y: x for x, y in convert_to_alpha.items()}`, visiting the numbers in increasing order. */
  method InvertNumbering(labels: seq<string>, toAlpha: map<int, string>) returns (toNum: map<string, int>)
    requires toAlpha == AlphaMap(labels)
    ensures toNum == NumMap(labels)
  {
    toNum := map[];
    var n := 1;
    while n <= |labels|
      invariant 1 <= n <= |labels| + 1
      invariant toNum == NumMap(labels[..n - 1])
    {
      assert labels[..n][..n - 1] == labels[..n - 1];
      toNum := toNum[toAlpha[n] := n];
      n := n + 1;
    }
    assert labels[..n - 1] == labels;
  }

  /**
   * `range_converter(colLength)`: the nested append loops that build the
   * label list, then the two dictionaries.
   */
  method RangeConverter(colLength: int) returns (toAlpha: map<int, string>, toNum: map<string, int>)
    ensures toAlpha == AlphaMap(Labels(colLength))
    ensures toNum == NumMap(Labels(colLength))
  {
    UppercaseAt();
    var alphaExtended: seq<string> := seq(26, i requires 0 <= i < 26 => [Uppercase[i]]);
    assert alphaExtended == Singles();
    if colLength != 1 {
      var k := 2;
      while k <= colLength
        invariant 2 <= k <= (if colLength >= 2 then colLength + 1 else 2)
        invariant alphaExtended == Labels(k - 1)
      {
        var newSequences := ExtendOnce(alphaExtended);
        alphaExtended := alphaExtended + newSequences;
        k := k + 1;
      }
    }
    assert alphaExtended == Labels(colLength);
    toAlpha := NumberLabels(alphaExtended);
    toNum := InvertNumbering(alphaExtended, toAlpha);
  }

  // ---------------------------------------------------------------------
  // Properties of the tables for any length

  function Pow27(k: nat): nat
  {
    if k == 0 then 1 else 27 * Pow27(k - 1)
  }

  /** 26 labels, and 27 times as many per extra tier: 702 for length 2, 18954 for length 3. */
  lemma {:induction false} LabelsSize(colLength: int)
    ensures |Labels(colLength)| == 26 * Pow27(if colLength <= 1 then 0 else colLength - 1)
    decreases colLength
  {
    if colLength > 1 {
      LabelsSize(colLength - 1);
    }
  }

  lemma SizesOfDefaultTiers()
    ensures |Labels(1)| == 26 && |Labels(2)| == 702 && |Labels(3)| == 18954
  {
    LabelsSize(1);
    LabelsSize(2);
    LabelsSize(3);
  }

  /** A longer table starts with every shorter one, so their numbering agrees. */
  lemma {:induction false} LabelsPrefix(shorter: int, longer: int)
    requires shorter <= longer
    ensures Labels(shorter) <= Labels(longer)
    decreases longer
  {
    if longer > 1 && shorter < longer {
      LabelsPrefix(shorter, longer - 1);
    }
  }

  /** Position of a one- or two-letter label in `Labels(2)`. */
  function Position2(s: string): Option<nat>
  {
    if |s| == 1 && IsUpper(s[0]) then Some(LetterIndex(s[0]))
    else if |s| == 2 && IsUpper(s[0]) && IsUpper(s[1]) then Some(26 + 26 * LetterIndex(s[0]) + LetterIndex(s[1]))
    else None
  }

  /** The second tier is "AA" .. "AZ", "BA" .. "ZZ", right after "A" .. "Z". */
  lemma Labels2At(i: nat)
    requires i < 702
    ensures |Labels(2)| == 702
    ensures i < 26 ==> Labels(2)[i] == Label1(i)
    ensures 26 <= i ==> Labels(2)[i] == Label2((i - 26) / 26, (i - 26) % 26)
  {
    assert Labels(2) == Singles() + Extend(Singles());
  }

  lemma Position2At(i: nat)
    requires i < 702
    ensures Position2(Labels(2)[i]) == Some(i)
  {
    Labels2At(i);
    if i >= 26 {
      var x := i - 26;
      assert x == 26 * (x / 26) + x % 26;
    }
  }

  predicate Distinct(labels: seq<string>)
  {
    forall i, j :: 0 <= i < j < |labels| ==> labels[i] != labels[j]
  }

  /** Labels of length 1 and 2 never repeat. */
  lemma DistinctUpTo2(colLength: int)
    requires colLength <= 2
    ensures Distinct(Labels(colLength))
  {
    var labels := Labels(colLength);
    LabelsPrefix(colLength, 2);
    LabelsSize(colLength);
    forall i, j | 0 <= i < j < |labels| ensures labels[i] != labels[j] {
      Position2At(i);
      Position2At(j);
    }
  }

  /** `convert_to_alpha[convert_to_num[s]] == s` for every generated label, whatever the length. */
  lemma AlphaOfNum(labels: seq<string>, s: string)
    requires s in labels
    ensures s in NumMap(labels) && NumMap(labels)[s] in AlphaMap(labels)
    ensures AlphaMap(labels)[NumMap(labels)[s]] == s
  {
    var i :| 0 <= i < |labels| && labels[i] == s;
    NumMapHas(labels, i);
    NumMapValue(labels, s);
  }

  /** `convert_to_num[convert_to_alpha[n]] == n` holds for tables of length at most 2. */
  lemma NumOfAlphaUpTo2(colLength: int, n: int)
    requires colLength <= 2 && 1 <= n <= |Labels(colLength)|
    ensures n in AlphaMap(Labels(colLength)) && AlphaMap(Labels(colLength))[n] in NumMap(Labels(colLength))
    ensures NumMap(Labels(colLength))[AlphaMap(Labels(colLength))[n]] == n
  {
    var labels := Labels(colLength);
    var s := labels[n - 1];
    NumMapHas(labels, n - 1);
    NumMapValue(labels, s);
    var m := NumMap(labels)[s];
    LabelsPrefix(colLength, 2);
    LabelsSize(colLength);
    assert labels[m - 1] == Labels(2)[m - 1] && labels[n - 1] == Labels(2)[n - 1];
    Position2At(m - 1);
    Position2At(n - 1);
  }

  /** In every table of length 2 or more, number a + 1 is the one-letter label a. */
  lemma FirstTier(colLength: int, a: nat)
    requires colLength >= 2 && a < 26
    ensures |Labels(colLength)| >= 702
    ensures AlphaMap(Labels(colLength))[a + 1] == Label1(a)
  {
    LabelsPrefix(2, colLength);
    SizesOfDefaultTiers();
    assert Labels(colLength)[a] == Labels(2)[a];
    Labels2At(a);
  }

  /** In every table of length 2 or more, number 27 + 26a + b is the two-letter label ab. */
  lemma SecondTier(colLength: int, a: nat, b: nat)
    requires colLength >= 2 && a < 26 && b < 26
    ensures |Labels(colLength)| >= 702
    ensures AlphaMap(Labels(colLength))[27 + 26 * a + b] == Label2(a, b)
  {
    LabelsPrefix(2, colLength);
    SizesOfDefaultTiers();
    var i := 26 + 26 * a + b;
    assert Labels(colLength)[i] == Labels(2)[i];
    Labels2At(i);
    DivMod26(i - 26, a, b);
  }

  // ---------------------------------------------------------------------
  // The default tables (length 3) that XlArray uses

  /** The class attributes `XlArray.convert_to_alpha` and `XlArray.convert_to_num`, from `range_converter()`. */
  const DefaultToAlpha: map<int, string> := AlphaMap(Labels(DefaultLength))
  const DefaultToNum: map<string, int> := NumMap(Labels(DefaultLength))

  /** A lookup in `XlArray.convert_to_alpha`; `None` is the KeyError of a missing key. */
  function TableToAlpha(n: int): Option<string>
  {
    if n in DefaultToAlpha then Some(DefaultToAlpha[n]) else None
  }

  /** A lookup in `XlArray.convert_to_num`; `None` is the KeyError of a missing key. */
  function TableToNum(s: string): Option<int>
  {
    if s in DefaultToNum then Some(DefaultToNum[s]) else None
  }

  /** The label at 0-based position `i` of the default table, in closed form. */
  function DefaultLabel(i: nat): string
    requires i < 18954
  {
    if i < 26 then Label1(i)
    else if i < 702 then Label2((i - 26) / 26, (i - 26) % 26)
    else if i < 1378 then Label2((i - 702) / 26, (i - 702) % 26)
    else
      var x := i - 1378;
      Label3(x / 26 / 26, x / 26 % 26, x % 26)
  }

  /** The LAST 0-based position of a label in the default table, in closed form. */
  function DefaultPosition(s: string): Option<nat>
  {
    if |s| == 1 && IsUpper(s[0]) then
      Some(LetterIndex(s[0]))
    else if |s| == 2 && IsUpper(s[0]) && IsUpper(s[1]) then
      Some(702 + 26 * LetterIndex(s[0]) + LetterIndex(s[1]))
    else if |s| == 3 && IsUpper(s[0]) && IsUpper(s[1]) && IsUpper(s[2]) then
      Some(1378 + 676 * LetterIndex(s[0]) + 26 * LetterIndex(s[1]) + LetterIndex(s[2]))
    else None
  }

  /** How far the last copy of the label at position `i` lies beyond `i`. */
  function Shift(i: int): int
  {
    if 26 <= i < 702 then 676 else 0
  }

  lemma Labels3At(i: nat)
    requires i < 18954
    ensures |Labels(3)| == 18954 && Labels(3)[i] == DefaultLabel(i)
  {
    SizesOfDefaultTiers();
    var l2 := Labels(2);
    assert Labels(3) == l2 + Extend(l2);
    if i < 702 {
      Labels2At(i);
    } else {
      var q := i - 702;
      assert Labels(3)[i] == l2[q / 26] + [Letter(q % 26)];
      ThirdPassAt(q);
    }
  }

  /** Entry `q` of the k = 3 pass: entry q / 26 of `Labels(2)` followed by letter q % 26. */
  lemma ThirdPassAt(q: nat)
    requires q < 18252
    ensures Labels(2)[q / 26] + [Letter(q % 26)] == DefaultLabel(702 + q)
  {
    Labels2At(q / 26);
    if q >= 676 {
      var x := q - 676;
      DivMod26(q, x / 26 + 26, x % 26);
    }
  }

  lemma PositionOfLabel(i: nat)
    requires i < 18954
    ensures DefaultPosition(DefaultLabel(i)) == Some(i + Shift(i))
  {
    if 26 <= i < 702 {
      var x := i - 26;
      assert x == 26 * (x / 26) + x % 26;
    } else if 702 <= i < 1378 {
      var x := i - 702;
      assert x == 26 * (x / 26) + x % 26;
    } else if i >= 1378 {
      var x := i - 1378;
      var y := x / 26;
      assert x == 26 * y + x % 26;
      assert y == 26 * (y / 26) + y % 26;
    }
  }

  lemma LabelOfPosition(s: string)
    requires DefaultPosition(s).Some?
    ensures DefaultPosition(s).value < 18954 && DefaultLabel(DefaultPosition(s).value) == s
  {
    var k := DefaultPosition(s).value;
    if |s| == 2 {
      var a, b := LetterIndex(s[0]), LetterIndex(s[1]);
      DivMod26(k - 702, a, b);
    } else if |s| == 3 {
      var a, b, c := LetterIndex(s[0]), LetterIndex(s[1]), LetterIndex(s[2]);
      var x := k - 1378;
      DivMod26(x, 26 * a + b, c);
      DivMod26(26 * a + b, a, b);
    }
  }

  /**
   * `XlArray.convert_to_alpha[n]` in closed form: the numbers 1 .. 18954 are
   * keys, and nothing else is. `AlphaLookupIsTable` proves it equal to the
   * lookup in the table itself; the rest of the model uses this form.
   */
  function ConvertToAlpha(n: int): (r: Option<string>)
    ensures r.Some? <==> 1 <= n <= 18954
  {
    if 1 <= n <= 18954 then Some(DefaultLabel(n - 1)) else None
  }

  /**
   * `XlArray.convert_to_num[s]` in closed form: A..Z are 1..26, a two-letter
   * label is 703 + 26a + b, a three-letter one 1379 + 676a + 26b + c, and
   * anything else is missing. `NumLookupIsTable` proves it equal to the table.
   */
  function ConvertToNum(s: string): (r: Option<int>)
    ensures r.Some? ==> 1 <= r.value <= 18954
    ensures r.Some? <==> 1 <= |s| <= 3 && forall k :: 0 <= k < |s| ==> IsUpper(s[k])
  {
    match DefaultPosition(s)
    case None => None
    case Some(k) => Some(k + 1)
  }

  lemma AlphaLookupIsTable(n: int)
    ensures TableToAlpha(n) == ConvertToAlpha(n)
  {
    SizesOfDefaultTiers();
    if 1 <= n <= 18954 {
      Labels3At(n - 1);
    }
  }

  lemma NumLookupIsTable(s: string)
    ensures TableToNum(s) == ConvertToNum(s)
  {
    if DefaultPosition(s).Some? {
      NumOfListedLabel(s);
    } else {
      NumOfUnlistedLabel(s);
    }
  }

  lemma NumOfUnlistedLabel(s: string)
    requires DefaultPosition(s).None?
    ensures TableToNum(s).None?
  {
    var m := NumMap(Labels(3));
    if s in m {
      NumMapValue(Labels(3), s);
      var i := m[s] - 1;
      SizesOfDefaultTiers();
      Labels3At(i);
      PositionOfLabel(i);
    }
  }

  lemma NumOfListedLabel(s: string)
    requires DefaultPosition(s).Some?
    ensures TableToNum(s) == Some(DefaultPosition(s).value + 1)
  {
    var labels := Labels(3);
    var m := NumMap(labels);
    var k := DefaultPosition(s).value;
    LabelOfPosition(s);
    Labels3At(k);
    assert labels[k] == s;
    NumMapHas(labels, k);
    NumMapValue(labels, s);
    var i := m[s] - 1;
    Labels3At(i);
    PositionOfLabel(i);
    if i < k {
      NumMapLast(labels, s, k);
    }
  }

  /** Every label of the default table maps back to itself: alpha(num(s)) == s. */
  lemma DefaultAlphaOfNum(s: string)
    requires ConvertToNum(s).Some?
    ensures ConvertToAlpha(ConvertToNum(s).value) == Some(s)
  {
    LabelOfPosition(s);
  }

  /**
   * The other direction fails on exactly the first duplicated stretch:
   * num(alpha(n)) == n except for 27..702, whose labels come back as n + 676.
   */
  lemma DefaultNumOfAlpha(n: int)
    requires 1 <= n <= 18954
    ensures ConvertToAlpha(n).Some?
    ensures ConvertToNum(ConvertToAlpha(n).value) == Some(n + Shift(n - 1))
  {
    PositionOfLabel(n - 1);
  }

  /**
   * With the default length every two-letter label is listed twice, as
   * numbers 27 + 26a + b and 703 + 26a + b, and `convert_to_num` gives the second.
   */
  lemma TwoLetterDuplicated(a: nat, b: nat)
    requires a < 26 && b < 26
    ensures ConvertToAlpha(27 + 26 * a + b) == Some(Label2(a, b))
    ensures ConvertToAlpha(703 + 26 * a + b) == Some(Label2(a, b))
    ensures ConvertToNum(Label2(a, b)) == Some(703 + 26 * a + b)
  {
    DivMod26(26 * a + b, a, b);
    var s := Label2(a, b);
    assert LetterIndex(s[0]) == a && LetterIndex(s[1]) == b;
  }

  /** The ordering the class comments promise: Z = 26, AA = 27, AZ = 52, BA = 53, ZZ = 702. */
  lemma TierOrder()
    ensures ConvertToAlpha(1) == Some("A") && ConvertToAlpha(26) == Some("Z")
    ensures ConvertToAlpha(27) == Some("AA") && ConvertToAlpha(52) == Some("AZ")
    ensures ConvertToAlpha(53) == Some("BA") && ConvertToAlpha(702) == Some("ZZ")
  {
    assert DefaultLabel(51) == Label2(0, 25);
    assert DefaultLabel(701) == Label2(25, 25);
  }

  /** With the default length, "AA" is number 27 one way and 703 the other; "A" is 1 and "AAA" 1379. */
  lemma DuplicateAtLength3()
    ensures ConvertToAlpha(27) == Some("AA") && ConvertToAlpha(703) == Some("AA")
    ensures ConvertToNum("AA") == Some(703) && ConvertToNum("A") == Some(1) && ConvertToNum("AAA") == Some(1379)
  {
    TwoLetterDuplicated(0, 0);
    assert Label2(0, 0) == "AA";
  }
}
