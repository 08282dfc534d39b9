/** The ROI catalog (`extraer_nombres_rois`): ROI Number to ROI Name, read
    from the Structure Set ROI sequence, and the name lookup used when a
    contour is drawn, which falls back to the label "ROI <number>". */
module RoiCatalog {
  import opened Wrappers
  import opened RtStructure

  type Catalog = map<int, string>

  /** Reference definition: the items inserted in order, a later item with
      the same number overwriting an earlier one. */
  function CatalogOf(rois: seq<StructureSetRoi>): Catalog
  {
    if rois == [] then map[]
    else
      var last := rois[|rois| - 1];
      CatalogOf(rois[..|rois| - 1])[last.roiNumber := last.roiName]
  }

  /** The catalog of a structure set; empty without a Structure Set ROI sequence. */
  function RoiCatalogOf(s: StructureSet): Catalog
  {
    match s.structureSetRois
    case None => map[]
    case Some(rois) => CatalogOf(rois)
  }

  /** The loop of the source, filling the dictionary in place. */
  method ExtractRoiNames(s: StructureSet) returns (catalog: Catalog)
    ensures catalog == RoiCatalogOf(s)
  {
    catalog := map[];
    if s.structureSetRois.Some? {
      var rois := s.structureSetRois.value;
      var i := 0;
      while i < |rois|
        invariant 0 <= i <= |rois|
        invariant catalog == CatalogOf(rois[..i])
      {
        assert rois[..i + 1][..i] == rois[..i];
        catalog := catalog[rois[i].roiNumber := rois[i].roiName];
        i := i + 1;
      }
      assert rois[..i] == rois;
    }
  }

  /** The catalog's keys are exactly the listed ROI Numbers. */
  lemma {:induction false} CatalogKeys(rois: seq<StructureSetRoi>)
    ensures forall n :: n in CatalogOf(rois) <==> exists i :: 0 <= i < |rois| && rois[i].roiNumber == n
  {
    if rois != [] {
      var init := rois[..|rois| - 1];
      CatalogKeys(init);
      forall n ensures n in CatalogOf(rois) <==> exists i :: 0 <= i < |rois| && rois[i].roiNumber == n {
        if n in CatalogOf(init) {
          var i :| 0 <= i < |init| && init[i].roiNumber == n;
          assert rois[i] == init[i];
        }
        if exists i :: 0 <= i < |rois| && rois[i].roiNumber == n {
          var i :| 0 <= i < |rois| && rois[i].roiNumber == n;
          if i < |init| { assert init[i] == rois[i]; }
        }
      }
    }
  }

  /** A number listed more than once is mapped to the name of its last item. */
  lemma {:induction false} CatalogLastWins(rois: seq<StructureSetRoi>, i: int)
    requires 0 <= i < |rois|
    requires forall j :: i < j < |rois| ==> rois[j].roiNumber != rois[i].roiNumber
    ensures rois[i].roiNumber in CatalogOf(rois)
    ensures CatalogOf(rois)[rois[i].roiNumber] == rois[i].roiName
  {
    var init := rois[..|rois| - 1];
    if i < |rois| - 1 {
      forall j | i < j < |init| ensures init[j].roiNumber != init[i].roiNumber {
        assert init[j] == rois[j];
      }
      CatalogLastWins(init, i);
    }
  }

  /** The digits of a natural number, most significant first, as `str` writes them. */
  function Digits(n: nat): (s: string)
    ensures IsDigits(s)
    ensures s[0] == '0' <==> n == 0
  {
    var d := (('0' as int) + n % 10) as char;
    if n < 10 then [d] else Digits(n / 10) + [d]
  }

  /** One or more decimal digits, with no leading zero except in "0". */
  predicate IsDigits(s: string)
  {
    |s| >= 1 && (forall k :: 0 <= k < |s| ==> '0' <= s[k] <= '9') && (s[0] == '0' ==> |s| == 1)
  }

  /** The canonical decimal numeral of an integer: digits, or a minus sign
      followed by the digits of a nonzero number. */
  predicate IsNumeral(s: string)
  {
    IsDigits(s) || (|s| >= 2 && s[0] == '-' && IsDigits(s[1..]) && s[1] != '0')
  }

  /** `str(n)` of an integer. */
  function DecimalString(n: int): (s: string)
    ensures IsNumeral(s)
  {
    if n < 0 then "-" + Digits(-n) else Digits(n)
  }

  /** The value of a string of decimal digits; partner of `Digits`. */
  function DigitsValue(s: string): nat
  {
    if s == [] then 0
    else
      var c := s[|s| - 1];
      DigitsValue(s[..|s| - 1]) * 10 + (if '0' <= c <= '9' then (c as int) - ('0' as int) else 0)
  }

  /** `int(s)` of a decimal string with an optional minus sign; partner of `DecimalString`. */
  function ParseDecimal(s: string): int
  {
    if |s| > 0 && s[0] == '-' then -(DigitsValue(s[1..]) as int) else DigitsValue(s)
  }

  lemma {:induction false} DigitsRoundTrip(n: nat)
    ensures DigitsValue(Digits(n)) == n
  {
    if n >= 10 {
      DigitsRoundTrip(n / 10);
      var s := Digits(n);
      assert s[..|s| - 1] == Digits(n / 10);
    }
  }

  /** Digits without a leading zero are the `str` of their value. */
  lemma {:induction false} DigitsCanonical(s: string)
    requires IsDigits(s)
    ensures Digits(DigitsValue(s)) == s
  {
    var init := s[..|s| - 1];
    var d := (s[|s| - 1] as int) - ('0' as int);
    if |s| > 1 {
      assert IsDigits(init) && init[0] == s[0];
      DigitsCanonical(init);
      assert DigitsValue(init) != 0;
      var v := DigitsValue(s);
      assert v == DigitsValue(init) * 10 + d;
      assert v / 10 == DigitsValue(init) && v % 10 == d;
      assert s == init + [s[|s| - 1]];
    } else {
      assert s == [s[0]];
      assert init == [];
    }
  }

  /** A canonical numeral is the decimal form of the number it denotes, so
      the numeral of a number is unique. */
  lemma NumeralCanonical(s: string)
    requires IsNumeral(s)
    ensures DecimalString(ParseDecimal(s)) == s
  {
    if IsDigits(s) {
      DigitsCanonical(s);
      assert s[0] != '-';
    } else {
      DigitsCanonical(s[1..]);
      assert DigitsValue(s[1..]) != 0;
      assert s == "-" + s[1..];
    }
  }

  /** `int(str(n)) == n`: the decimal form of a number determines it. */
  lemma DecimalRoundTrip(n: int)
    ensures ParseDecimal(DecimalString(n)) == n
  {
    if n < 0 {
      DigitsRoundTrip(-n);
      assert DecimalString(n)[1..] == Digits(-n);
    } else {
      DigitsRoundTrip(n);
    }
  }

  /** The label synthesised for a number that has no name: f"ROI {n}". */
  function FallbackLabel(n: int): (text: string)
    ensures |text| > 4 && text[..4] == "ROI "
    ensures IsNumeral(text[4..]) && ParseDecimal(text[4..]) == n
  {
    var text := "ROI " + DecimalString(n);
    assert text[4..] == DecimalString(n);
    DecimalRoundTrip(n);
    text
  }

  /** Distinct unnamed numbers get distinct labels. */
  lemma FallbackLabelInjective(m: int, n: int)
    requires FallbackLabel(m) == FallbackLabel(n)
    ensures m == n
  {
    assert FallbackLabel(m)[4..] == DecimalString(m);
    assert FallbackLabel(n)[4..] == DecimalString(n);
    DecimalRoundTrip(m);
    DecimalRoundTrip(n);
  }

  /** `organ_dict.get(n, f"ROI {n}")`: total, never fails. */
  function ResolveRoiName(catalog: Catalog, n: int): (name: string)
    ensures n in catalog ==> name == catalog[n]
    ensures n !in catalog ==> |name| > 4 && name[..4] == "ROI " && IsNumeral(name[4..]) && ParseDecimal(name[4..]) == n
  {
    if n in catalog then catalog[n] else FallbackLabel(n)
  }

  /** Item `i` is the last item of the sequence numbered `n`. */
  predicate LastNumbered(rois: seq<StructureSetRoi>, n: int, i: int)
  {
    0 <= i < |rois| && rois[i].roiNumber == n &&
    forall j :: i < j < |rois| ==> rois[j].roiNumber != n
  }

  /** A listed number resolves to the name of its last item. */
  lemma ResolveListedNumber(rois: seq<StructureSetRoi>, n: int, i: int)
    requires 0 <= i < |rois| && rois[i].roiNumber == n
    ensures exists k :: LastNumbered(rois, n, k) && ResolveRoiName(CatalogOf(rois), n) == rois[k].roiName
  {
    var k := LastWith(rois, n, i);
    CatalogLastWins(rois, k);
    assert LastNumbered(rois, n, k);
  }

  /** An unlisted number resolves, without failing, to the label
      "ROI " + str(n), from which the number can be read back. */
  lemma ResolveUnlistedNumber(rois: seq<StructureSetRoi>, n: int)
    requires forall i :: 0 <= i < |rois| ==> rois[i].roiNumber != n
    ensures ResolveRoiName(CatalogOf(rois), n) == FallbackLabel(n)
    ensures ParseDecimal(ResolveRoiName(CatalogOf(rois), n)[4..]) == n
  {
    CatalogKeys(rois);
    assert n !in CatalogOf(rois);
    DecimalRoundTrip(n);
    assert FallbackLabel(n)[4..] == DecimalString(n);
  }

  /** The index of the last item numbered `n`, at or after `i`. */
  function LastWith(rois: seq<StructureSetRoi>, n: int, i: int): (k: int)
    requires 0 <= i < |rois| && rois[i].roiNumber == n
    ensures i <= k < |rois| && rois[k].roiNumber == n
    ensures forall j :: k < j < |rois| ==> rois[j].roiNumber != n
    decreases |rois| - i
  {
    if exists j :: i < j < |rois| && rois[j].roiNumber == n then
      var j :| i < j < |rois| && rois[j].roiNumber == n;
      LastWith(rois, n, j)
    else i
  }

  /** Worked example: with the catalog {1: "Heart"}, number 7 resolves to "ROI 7". */
  lemma FallbackExample()
    ensures ResolveRoiName(map[1 := "Heart"], 7) == "ROI 7"
    ensures ResolveRoiName(map[1 := "Heart"], 1) == "Heart"
  {
  }
}
