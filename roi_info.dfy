/** The ROI listing script: (ROI Number, ROI Name) pairs of a structure set
    sorted as Python sorts tuples, two such lists padded to a common length
    with ("", "") rows, and the four equal-length columns built from them. */
module RoiInfo {
  import opened Wrappers
  import opened RtStructure

  datatype RoiPair = RoiPair(number: int, name: string)

  /** `ds.StructureSetROISequence` raised AttributeError: the record has no
      Structure Set ROI sequence. */
  datatype RoiInfoError = MissingStructureSetRoiSequence

  /** Python's `a <= b` on strings: code point by code point, a proper
      prefix first. */
  predicate NameLe(a: string, b: string)
  {
    if a == [] then true
    else if b == [] then false
    else if a[0] != b[0] then a[0] < b[0]
    else NameLe(a[1..], b[1..])
  }

  /** Python's `<=` on (number, name) tuples. */
  predicate PairLe(p: RoiPair, q: RoiPair)
  {
    p.number < q.number || (p.number == q.number && NameLe(p.name, q.name))
  }

  predicate Sorted(s: seq<RoiPair>)
  {
    forall i, j :: 0 <= i < j < |s| ==> PairLe(s[i], s[j])
  }

  lemma {:induction false} NameLeReflexive(a: string)
    ensures NameLe(a, a)
  {
    if a != [] { NameLeReflexive(a[1..]); }
  }

  lemma {:induction false} NameLeTotal(a: string, b: string)
    ensures NameLe(a, b) || NameLe(b, a)
  {
    if a != [] && b != [] && a[0] == b[0] { NameLeTotal(a[1..], b[1..]); }
  }

  lemma {:induction false} NameLeAntisymmetric(a: string, b: string)
    requires NameLe(a, b) && NameLe(b, a)
    ensures a == b
  {
    if a != [] && b != [] {
      NameLeAntisymmetric(a[1..], b[1..]);
      assert a == [a[0]] + a[1..] && b == [b[0]] + b[1..];
    }
  }

  lemma {:induction false} NameLeTransitive(a: string, b: string, c: string)
    requires NameLe(a, b) && NameLe(b, c)
    ensures NameLe(a, c)
  {
    if a != [] && b != [] && c != [] && a[0] == b[0] && b[0] == c[0] {
      NameLeTransitive(a[1..], b[1..], c[1..]);
    }
  }

  /** The tuple order is a total order: reflexive, total, antisymmetric and
      transitive. */
  lemma PairLeTotalOrder(p: RoiPair, q: RoiPair, r: RoiPair)
    ensures PairLe(p, p)
    ensures PairLe(p, q) || PairLe(q, p)
    ensures PairLe(p, q) && PairLe(q, p) ==> p == q
    ensures PairLe(p, q) && PairLe(q, r) ==> PairLe(p, r)
  {
    NameLeReflexive(p.name);
    NameLeTotal(p.name, q.name);
    if PairLe(p, q) && PairLe(q, p) { NameLeAntisymmetric(p.name, q.name); }
    if PairLe(p, q) && PairLe(q, r) && p.number == q.number == r.number {
      NameLeTransitive(p.name, q.name, r.name);
    }
  }

  /** Every element of `s` is at least `x`. */
  predicate LowerBound(x: RoiPair, s: seq<RoiPair>)
  {
    forall k :: 0 <= k < |s| ==> PairLe(x, s[k])
  }

  lemma SortedCons(x: RoiPair, s: seq<RoiPair>)
    requires LowerBound(x, s) && Sorted(s)
    ensures Sorted([x] + s)
  {
    var t := [x] + s;
    forall i, j | 0 <= i < j < |t| ensures PairLe(t[i], t[j]) {
      assert t[j] == s[j - 1];
      if i > 0 { assert t[i] == s[i - 1]; }
    }
  }

  /** The first element of a sorted list bounds the rest. */
  lemma SortedHead(s: seq<RoiPair>)
    requires Sorted(s) && s != []
    ensures LowerBound(s[0], s)
  {
    PairLeTotalOrder(s[0], s[0], s[0]);
  }

  lemma InsertFront(p: RoiPair, s: seq<RoiPair>)
    requires Sorted(s) && s != [] && PairLe(p, s[0])
    ensures Sorted([p] + s)
  {
    forall k | 0 <= k < |s| ensures PairLe(p, s[k]) {
      PairLeTotalOrder(p, s[0], s[k]);
      SortedHead(s);
    }
    SortedCons(p, s);
  }

  lemma InsertBehind(p: RoiPair, s: seq<RoiPair>, rest: seq<RoiPair>)
    requires Sorted(s) && s != [] && !PairLe(p, s[0])
    requires Sorted(rest) && multiset(rest) == multiset(s[1..]) + multiset{p}
    ensures Sorted([s[0]] + rest)
    ensures multiset([s[0]] + rest) == multiset(s) + multiset{p}
  {
    PairLeTotalOrder(p, s[0], p);
    SortedHead(s);
    forall j | 0 <= j < |rest| ensures PairLe(s[0], rest[j]) {
      assert rest[j] in multiset(rest);
      if rest[j] != p {
        assert rest[j] in multiset(s[1..]);
        var k :| 0 <= k < |s[1..]| && s[1..][k] == rest[j];
        assert s[k + 1] == rest[j];
      }
    }
    SortedCons(s[0], rest);
    assert s == [s[0]] + s[1..];
  }

  /** Insertion of one pair into a sorted list. */
  function Insert(p: RoiPair, s: seq<RoiPair>): (r: seq<RoiPair>)
    requires Sorted(s)
    ensures Sorted(r)
    ensures multiset(r) == multiset(s) + multiset{p}
  {
    if s == [] then [p]
    else if PairLe(p, s[0]) then
      InsertFront(p, s);
      [p] + s
    else
      var rest := Insert(p, s[1..]);
      InsertBehind(p, s, rest);
      [s[0]] + rest
  }

  /** The model of `sorted()`: a sorted permutation of its input. */
  function SortPairs(s: seq<RoiPair>): (r: seq<RoiPair>)
    ensures Sorted(r)
    ensures multiset(r) == multiset(s)
  {
    if s == [] then []
    else
      assert s == [s[0]] + s[1..];
      Insert(s[0], SortPairs(s[1..]))
  }

  /** Two sorted permutations of one list start with the same element. */
  lemma SameHead(a: seq<RoiPair>, b: seq<RoiPair>)
    requires Sorted(a) && Sorted(b) && multiset(a) == multiset(b) && a != [] && b != []
    ensures a[0] == b[0]
  {
    assert a[0] in multiset(b);
    assert b[0] in multiset(a);
    SortedHead(a);
    SortedHead(b);
    var i :| 0 <= i < |b| && b[i] == a[0];
    var j :| 0 <= j < |a| && a[j] == b[0];
    assert PairLe(b[0], a[0]) && PairLe(a[0], b[0]);
    PairLeTotalOrder(a[0], b[0], a[0]);
  }

  /** A list has one sorted permutation, so any sorting algorithm (the
      library's included) returns what `SortPairs` returns. */
  lemma {:induction false} SortedPermutationUnique(a: seq<RoiPair>, b: seq<RoiPair>)
    requires Sorted(a) && Sorted(b) && multiset(a) == multiset(b)
    ensures a == b
  {
    if a == [] || b == [] {
      assert |a| == |multiset(a)| == |multiset(b)| == |b|;
    } else {
      SameHead(a, b);
      assert a == [a[0]] + a[1..] && b == [b[0]] + b[1..];
      assert multiset(a[1..]) == multiset(a) - multiset{a[0]};
      assert multiset(b[1..]) == multiset(b) - multiset{b[0]};
      assert Sorted(a[1..]) && Sorted(b[1..]);
      SortedPermutationUnique(a[1..], b[1..]);
    }
  }

  /** The pairs of a Structure Set ROI sequence, in sequence order. */
  function PairsOf(rois: seq<StructureSetRoi>): seq<RoiPair>
  {
    seq(|rois|, i requires 0 <= i < |rois| => RoiPair(rois[i].roiNumber, rois[i].roiName))
  }

  /** `extract_roi_info` once the file is read: the loop collecting the pairs,
      then `sorted`. */
  method ExtractRoiInfo(s: StructureSet) returns (r: Result<seq<RoiPair>, RoiInfoError>)
    ensures r.Err? <==> s.structureSetRois.None?
    ensures r.Ok? ==> Sorted(r.value) && multiset(r.value) == multiset(PairsOf(s.structureSetRois.value))
  {
    if s.structureSetRois.None? {
      return Err(MissingStructureSetRoiSequence);
    }
    var rois := s.structureSetRois.value;
    var info: seq<RoiPair> := [];
    var i := 0;
    while i < |rois|
      invariant 0 <= i <= |rois| && |info| == i
      invariant forall k :: 0 <= k < i ==> info[k] == RoiPair(rois[k].roiNumber, rois[k].roiName)
    {
      info := info + [RoiPair(rois[i].roiNumber, rois[i].roiName)];
      i := i + 1;
    }
    assert info == PairsOf(rois);
    r := Ok(SortPairs(info));
  }

  /** A cell of a number column: an int, or the "" of a padding row. */
  datatype Cell = IntCell(value: int) | TextCell(text: string)

  /** One element of a padded list: a (number, name) tuple or ("", ""). */
  datatype Row = Row(number: Cell, name: string)

  const BlankRow := Row(TextCell(""), "")

  function Rows(pairs: seq<RoiPair>): seq<Row>
  {
    seq(|pairs|, i requires 0 <= i < |pairs| => Row(IntCell(pairs[i].number), pairs[i].name))
  }

  /** `[("", "")] * n`. */
  function Blanks(n: int): (r: seq<Row>)
    ensures |r| == if n < 0 then 0 else n
    ensures forall i :: 0 <= i < |r| ==> r[i] == BlankRow
  {
    if n <= 0 then [] else Blanks(n - 1) + [BlankRow]
  }

  function Max(a: int, b: int): int
  {
    if a >= b then a else b
  }

  /** The two `+=` statements: each list is extended with ("", "") rows up to
      the length of the longer one. */
  method EqualizeLengths(rows1: seq<Row>, rows2: seq<Row>) returns (padded1: seq<Row>, padded2: seq<Row>)
    ensures |padded1| == |padded2| == Max(|rows1|, |rows2|)
    ensures padded1[..|rows1|] == rows1 && padded2[..|rows2|] == rows2
    ensures forall i :: |rows1| <= i < |padded1| ==> padded1[i] == BlankRow
    ensures forall i :: |rows2| <= i < |padded2| ==> padded2[i] == BlankRow
    ensures |rows1| >= |rows2| ==> padded1 == rows1
    ensures |rows2| >= |rows1| ==> padded2 == rows2
  {
    var maxLen := Max(|rows1|, |rows2|);
    padded1 := rows1 + Blanks(maxLen - |rows1|);
    padded2 := rows2 + Blanks(maxLen - |rows2|);
  }

  /** The four columns of the DataFrame. */
  datatype RoiTable = RoiTable(numbers1: seq<Cell>, names1: seq<string>, numbers2: seq<Cell>, names2: seq<string>)

  function NumberColumn(rows: seq<Row>): seq<Cell>
  {
    seq(|rows|, i requires 0 <= i < |rows| => rows[i].number)
  }

  function NameColumn(rows: seq<Row>): seq<string>
  {
    seq(|rows|, i requires 0 <= i < |rows| => rows[i].name)
  }

  /** What the script tabulates for two sorted ROI lists: four columns of one
      length, each list's pairs on top and "" below them. */
  method CompareRoiLists(info1: seq<RoiPair>, info2: seq<RoiPair>) returns (df: RoiTable)
    ensures |df.numbers1| == |df.names1| == |df.numbers2| == |df.names2| == Max(|info1|, |info2|)
    ensures forall i :: 0 <= i < |df.numbers1| ==>
      df.numbers1[i] == (if i < |info1| then IntCell(info1[i].number) else TextCell("")) &&
      df.names1[i] == (if i < |info1| then info1[i].name else "")
    ensures forall i :: 0 <= i < |df.numbers2| ==>
      df.numbers2[i] == (if i < |info2| then IntCell(info2[i].number) else TextCell("")) &&
      df.names2[i] == (if i < |info2| then info2[i].name else "")
  {
    var rows1 := Rows(info1);
    var rows2 := Rows(info2);
    var padded1, padded2 := EqualizeLengths(rows1, rows2);
    forall i | 0 <= i < |info1| ensures padded1[i] == rows1[i] {
      assert padded1[..|rows1|][i] == padded1[i];
    }
    forall i | 0 <= i < |info2| ensures padded2[i] == rows2[i] {
      assert padded2[..|rows2|][i] == padded2[i];
    }
    df := RoiTable(NumberColumn(padded1), NameColumn(padded1), NumberColumn(padded2), NameColumn(padded2));
  }
}
