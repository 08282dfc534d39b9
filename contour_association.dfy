/** Grouping of the contours of a structure set by the image they were drawn
    on (`extraer_contornos_por_imagen`): for every item of the ROI Contour
    sequence, every contour and every Contour Image item, one entry is
    appended to the list kept under the referenced SOP Instance UID. */
module ContourAssociation {
  import opened Wrappers
  import opened RtStructure

  /** What the table holds per reference: the ROI number of the parent ROI
      Contour item and the contour's points. */
  datatype Entry = Entry(roiNumber: int, contourData: seq<Point3>)

  /** Referenced SOP Instance UID to the entries appended under it. */
  type Table = map<string, seq<Entry>>

  /** `reshape(-1, 3)` met a Contour Data of this length and raised. */
  datatype AssociationError = MalformedContourData(length: nat)

  /** One (contour, image reference) pair of the ROI Contour sequence, before
      its Contour Data is reshaped. */
  datatype ImageRef = ImageRef(uid: string, roiNumber: int, contourData: seq<real>)

  function UidRefs(uids: seq<string>, roiNumber: int, data: seq<real>): seq<ImageRef>
  {
    seq(|uids|, k requires 0 <= k < |uids| => ImageRef(uids[k], roiNumber, data))
  }

  /** The references of one contour; none when it has no Contour Image sequence. */
  function ContourRefs(roiNumber: int, c: Contour): seq<ImageRef>
  {
    match c.contourImageUids
    case None => []
    case Some(uids) => UidRefs(uids, roiNumber, c.contourData)
  }

  /** The references of the contours of one ROI Contour item, in contour order. */
  function RoiRefs(roiNumber: int, contours: seq<Contour>): seq<ImageRef>
  {
    if contours == [] then []
    else RoiRefs(roiNumber, contours[..|contours| - 1]) + ContourRefs(roiNumber, contours[|contours| - 1])
  }

  /** All references of a ROI Contour sequence, in ROI, contour, reference order. */
  function AllRefs(rois: seq<RoiContour>): seq<ImageRef>
  {
    if rois == [] then []
    else
      var last := rois[|rois| - 1];
      AllRefs(rois[..|rois| - 1]) + RoiRefs(last.referencedRoiNumber, last.contours)
  }

  /** All references of a structure set; none without a ROI Contour sequence. */
  function StructureSetRefs(s: StructureSet): seq<ImageRef>
  {
    match s.roiContours
    case None => []
    case Some(rois) => AllRefs(rois)
  }

  /** The table after appending `e` to the list under `uid`, creating the
      list when the key is new. */
  function Append(t: Table, uid: string, e: Entry): Table
  {
    t[uid := (if uid in t then t[uid] else []) + [e]]
  }

  /** The table built from a list of references processed in order, or the
      error raised by the first reference whose Contour Data cannot be
      reshaped. */
  function Associate(refs: seq<ImageRef>): Result<Table, AssociationError>
  {
    if refs == [] then Ok(map[])
    else
      match Associate(refs[..|refs| - 1])
      case Err(e) => Err(e)
      case Ok(t) =>
        var r := refs[|refs| - 1];
        match Reshape3(r.contourData)
        case None => Err(MalformedContourData(|r.contourData|))
        case Some(points) => Ok(Append(t, r.uid, Entry(r.roiNumber, points)))
  }

  /** Every reference carries a Contour Data that reshapes into triples. */
  predicate WellFormed(refs: seq<ImageRef>)
  {
    forall k :: 0 <= k < |refs| ==> |refs[k].contourData| % 3 == 0
  }

  function EntryOf(r: ImageRef): Entry
    requires |r.contourData| % 3 == 0
  {
    Entry(r.roiNumber, Reshape3(r.contourData).value)
  }

  /** Reference definition of one list of the table: the entries of the
      references to `uid`, in the order of the references. */
  function EntriesFor(refs: seq<ImageRef>, uid: string): seq<Entry>
    requires WellFormed(refs)
  {
    if refs == [] then []
    else
      var r := refs[|refs| - 1];
      EntriesFor(refs[..|refs| - 1], uid) + (if r.uid == uid then [EntryOf(r)] else [])
  }

  /** The number of entries over all keys of a table. */
  ghost function TotalEntries(t: Table): nat
    decreases |t.Keys|
  {
    if t.Keys == {} then 0
    else
      var uid :| uid in t;
      assert (t - {uid}).Keys == t.Keys - {uid};
      |t[uid]| + TotalEntries(t - {uid})
  }

  /** The imperative walk of the source: three nested loops that append to
      the table in place; a reshape failure aborts the whole extraction.
      The bodies of the two outer loops are the methods below. */
  method ExtractContoursPerImage(s: StructureSet) returns (r: Result<Table, AssociationError>)
    ensures r == Associate(StructureSetRefs(s))
  {
    var table: Table := map[];
    if s.roiContours.Some? {
      var rois := s.roiContours.value;
      var i := 0;
      while i < |rois|
        invariant 0 <= i <= |rois|
        invariant Associate(AllRefs(rois[..i])) == Ok(table)
      {
        assert rois[..i + 1][..i] == rois[..i];
        var step := AppendRoiContour(AllRefs(rois[..i]), table, rois[i]);
        if step.Err? {
          AllRefsPrefix(rois, i + 1);
          ErrPersists(AllRefs(rois[..i + 1]), AllRefs(rois));
          return step;
        }
        table := step.value;
        i := i + 1;
      }
      assert rois[..i] == rois;
    }
    r := Ok(table);
  }

  /** The middle loop: the contours of one ROI Contour item, appended to a
      table built from the references `before`. */
  method AppendRoiContour(ghost before: seq<ImageRef>, table: Table, roi: RoiContour)
    returns (r: Result<Table, AssociationError>)
    requires Associate(before) == Ok(table)
    ensures r == Associate(before + RoiRefs(roi.referencedRoiNumber, roi.contours))
  {
    var roiNumber := roi.referencedRoiNumber;
    var contours := roi.contours;
    var current := table;
    var j := 0;
    assert before + RoiRefs(roiNumber, contours[..0]) == before;
    while j < |contours|
      invariant 0 <= j <= |contours|
      invariant Associate(before + RoiRefs(roiNumber, contours[..j])) == Ok(current)
    {
      RoiRefsStep(before, roiNumber, contours, j);
      var step := AppendContour(before + RoiRefs(roiNumber, contours[..j]), current, roiNumber, contours[j]);
      if step.Err? {
        RoiRefsPrefix(roiNumber, contours, j + 1);
        ErrPersists(before + RoiRefs(roiNumber, contours[..j + 1]), before + RoiRefs(roiNumber, contours));
        return step;
      }
      current := step.value;
      j := j + 1;
    }
    assert contours[..j] == contours;
    r := Ok(current);
  }

  /** The inner loop: one entry per Contour Image item of one contour,
      appended to a table built from the references `done`. */
  method AppendContour(ghost done: seq<ImageRef>, table: Table, roiNumber: int, contour: Contour)
    returns (r: Result<Table, AssociationError>)
    requires Associate(done) == Ok(table)
    ensures r == Associate(done + ContourRefs(roiNumber, contour))
  {
    if contour.contourImageUids.None? {
      assert done + ContourRefs(roiNumber, contour) == done;
      return Ok(table);
    }
    var uids := contour.contourImageUids.value;
    var data := contour.contourData;
    assert ContourRefs(roiNumber, contour) == UidRefs(uids, roiNumber, data);
    var current := table;
    var k := 0;
    assert done + UidRefs(uids[..0], roiNumber, data) == done;
    while k < |uids|
      invariant 0 <= k <= |uids|
      invariant Associate(done + UidRefs(uids[..k], roiNumber, data)) == Ok(current)
    {
      var uid := uids[k];
      var points := Reshape3(data);
      ReferenceStep(done, uids, k, roiNumber, data, current);
      if points.None? {
        return Err(MalformedContourData(|data|));
      }
      current := AddEntry(current, uid, Entry(roiNumber, points.value));
      k := k + 1;
    }
    assert uids[..k] == uids;
    r := Ok(current);
  }

  /** Creates the UID's list when it is missing, then appends to it. */
  method AddEntry(table: Table, uid: string, e: Entry) returns (t: Table)
    ensures t == Append(table, uid, e)
  {
    t := table;
    if uid !in t {
      t := t[uid := []];
    }
    t := t[uid := t[uid] + [e]];
  }

  /** One iteration of the inner loop, on the specification side: the next
      reference either appends its entry or ends the extraction. */
  lemma ReferenceStep(done: seq<ImageRef>, uids: seq<string>, k: nat, n: int, data: seq<real>, t: Table)
    requires k < |uids|
    requires Associate(done + UidRefs(uids[..k], n, data)) == Ok(t)
    ensures Reshape3(data).None? ==>
      Associate(done + UidRefs(uids, n, data)) == Err(MalformedContourData(|data|))
    ensures Reshape3(data).Some? ==>
      var e := Entry(n, Reshape3(data).value);
      Associate(done + UidRefs(uids[..k + 1], n, data)) == Ok(Append(t, uids[k], e))
  {
    var refs := done + UidRefs(uids[..k], n, data);
    var r := ImageRef(uids[k], n, data);
    UidRefsStep(done, uids, k, n, data);
    AssociateStep(refs, r);
    if Reshape3(data).None? {
      assert refs + [r] <= done + UidRefs(uids, n, data);
      ErrPersists(refs + [r], done + UidRefs(uids, n, data));
    }
  }

  lemma UidRefsStep(done: seq<ImageRef>, uids: seq<string>, k: nat, n: int, data: seq<real>)
    requires k < |uids|
    ensures done + UidRefs(uids[..k + 1], n, data) == done + UidRefs(uids[..k], n, data) + [ImageRef(uids[k], n, data)]
  {
    assert UidRefs(uids[..k + 1], n, data) == UidRefs(uids[..k], n, data) + [ImageRef(uids[k], n, data)];
  }

  lemma RoiRefsStep(before: seq<ImageRef>, n: int, cs: seq<Contour>, j: nat)
    requires j < |cs|
    ensures before + RoiRefs(n, cs[..j + 1]) == before + RoiRefs(n, cs[..j]) + ContourRefs(n, cs[j])
  {
    assert cs[..j + 1][..j] == cs[..j];
  }

  /** One step of the fold: processing one more reference. */
  lemma AssociateStep(refs: seq<ImageRef>, r: ImageRef)
    ensures Associate(refs + [r]) ==
      match Associate(refs)
      case Err(e) => Err(e)
      case Ok(t) =>
        match Reshape3(r.contourData)
        case None => Err(MalformedContourData(|r.contourData|))
        case Some(points) => Ok(Append(t, r.uid, Entry(r.roiNumber, points)))
  {
    assert (refs + [r])[..|refs|] == refs;
  }

  lemma {:induction false} RoiRefsPrefix(n: int, cs: seq<Contour>, j: nat)
    requires j <= |cs|
    ensures RoiRefs(n, cs[..j]) <= RoiRefs(n, cs)
    decreases |cs|
  {
    if j < |cs| {
      var init := cs[..|cs| - 1];
      assert cs[..j] == init[..j];
      RoiRefsPrefix(n, init, j);
    } else {
      assert cs[..j] == cs;
    }
  }

  lemma {:induction false} AllRefsPrefix(rois: seq<RoiContour>, i: nat)
    requires i <= |rois|
    ensures AllRefs(rois[..i]) <= AllRefs(rois)
    decreases |rois|
  {
    if i < |rois| {
      var init := rois[..|rois| - 1];
      assert rois[..i] == init[..i];
      AllRefsPrefix(init, i);
    } else {
      assert rois[..i] == rois;
    }
  }

  /** Once a reference fails, every longer list of references fails with the
      same error: nothing after the failing reference is processed. */
  lemma {:induction false} ErrPersists(a: seq<ImageRef>, b: seq<ImageRef>)
    requires a <= b && Associate(a).Err?
    ensures Associate(b) == Associate(a)
    decreases |b|
  {
    if |b| > |a| {
      var init := b[..|b| - 1];
      assert a <= init;
      ErrPersists(a, init);
    } else {
      assert a == b;
    }
  }

  /** The extraction succeeds exactly when every referenced contour's
      Contour Data has a length divisible by three. */
  lemma {:induction false} AssociateSucceedsIff(refs: seq<ImageRef>)
    ensures Associate(refs).Ok? <==> WellFormed(refs)
  {
    if refs != [] {
      var init := refs[..|refs| - 1];
      AssociateSucceedsIff(init);
      AssociateStep(init, refs[|refs| - 1]);
      assert refs == init + [refs[|refs| - 1]];
      if WellFormed(init) && |refs[|refs| - 1].contourData| % 3 == 0 {
        forall k | 0 <= k < |refs| ensures |refs[k].contourData| % 3 == 0 {
          if k < |refs| - 1 { assert refs[k] == init[k]; }
        }
      }
      if WellFormed(refs) {
        assert WellFormed(init) by {
          forall k | 0 <= k < |init| ensures |init[k].contourData| % 3 == 0 {
            assert init[k] == refs[k];
          }
        }
      }
    }
  }

  /** Some reference is to `uid`. */
  predicate Mentions(refs: seq<ImageRef>, uid: string)
  {
    exists k :: 0 <= k < |refs| && refs[k].uid == uid
  }

  lemma MentionsStep(refs: seq<ImageRef>, uid: string)
    requires refs != []
    ensures Mentions(refs, uid) <==> Mentions(refs[..|refs| - 1], uid) || refs[|refs| - 1].uid == uid
  {
    var init := refs[..|refs| - 1];
    if Mentions(refs, uid) {
      var k :| 0 <= k < |refs| && refs[k].uid == uid;
      if k < |init| { assert init[k].uid == uid; }
    }
    if Mentions(init, uid) {
      var k :| 0 <= k < |init| && init[k].uid == uid;
      assert refs[k].uid == uid;
    }
  }

  /** The table at one UID, by induction on the references. */
  lemma {:induction false} ContentsAt(refs: seq<ImageRef>, t: Table, uid: string)
    requires Associate(refs) == Ok(t) && WellFormed(refs)
    ensures uid in t <==> Mentions(refs, uid)
    ensures uid in t ==> t[uid] == EntriesFor(refs, uid) && t[uid] != []
    ensures uid !in t ==> EntriesFor(refs, uid) == []
  {
    if refs != [] {
      var init := refs[..|refs| - 1];
      var r := refs[|refs| - 1];
      assert refs == init + [r];
      AssociateStep(init, r);
      AssociateSucceedsIff(init);
      var t0 := Associate(init).value;
      ContentsAt(init, t0, uid);
      MentionsStep(refs, uid);
      var e := Entry(r.roiNumber, Reshape3(r.contourData).value);
      assert t == Append(t0, r.uid, e);
      assert EntriesFor(refs, uid) == EntriesFor(init, uid) + (if r.uid == uid then [EntryOf(r)] else []);
    }
  }

  /** What the table holds: its keys are exactly the referenced UIDs, the
      list under each key is the entries of the references to it in source
      order, duplicates included, and no list is empty. */
  lemma AssociateContents(refs: seq<ImageRef>, t: Table)
    requires Associate(refs) == Ok(t)
    ensures WellFormed(refs)
    ensures forall uid :: uid in t <==> Mentions(refs, uid)
    ensures forall uid :: uid in t ==> t[uid] == EntriesFor(refs, uid) && t[uid] != []
    ensures forall uid :: uid !in t ==> EntriesFor(refs, uid) == []
  {
    AssociateSucceedsIff(refs);
    forall uid
      ensures uid in t <==> Mentions(refs, uid)
      ensures uid in t ==> t[uid] == EntriesFor(refs, uid) && t[uid] != []
      ensures uid !in t ==> EntriesFor(refs, uid) == []
    {
      ContentsAt(refs, t, uid);
    }
  }

  /** Reference `k` is to `uid` and yields entry `e`. */
  predicate Yields(refs: seq<ImageRef>, k: int, uid: string, e: Entry)
  {
    0 <= k < |refs| && refs[k].uid == uid && |refs[k].contourData| % 3 == 0 && EntryOf(refs[k]) == e
  }

  lemma YieldsInPrefix(refs: seq<ImageRef>, k: int, uid: string, e: Entry)
    requires refs != [] && 0 <= k < |refs| - 1
    ensures Yields(refs, k, uid, e) <==> Yields(refs[..|refs| - 1], k, uid, e)
  {
    assert refs[..|refs| - 1][k] == refs[k];
  }

  lemma {:induction false} EntriesForMembers(refs: seq<ImageRef>, uid: string, e: Entry)
    requires WellFormed(refs)
    ensures e in EntriesFor(refs, uid) <==> exists k :: Yields(refs, k, uid, e)
  {
    if refs != [] {
      var init := refs[..|refs| - 1];
      var last := |refs| - 1;
      EntriesForMembers(init, uid, e);
      assert EntriesFor(refs, uid) == EntriesFor(init, uid) + (if refs[last].uid == uid then [EntryOf(refs[last])] else []);
      if exists k :: Yields(refs, k, uid, e) {
        var k :| Yields(refs, k, uid, e);
        if k < last {
          YieldsInPrefix(refs, k, uid, e);
        }
      }
      if e in EntriesFor(init, uid) {
        var k :| Yields(init, k, uid, e);
        YieldsInPrefix(refs, k, uid, e);
      }
      if refs[last].uid == uid && EntryOf(refs[last]) == e {
        assert Yields(refs, last, uid, e);
      }
    }
  }

  /** Removing one key removes exactly that key's entries from the total,
      whichever key the definition of the total happens to pick first. */
  lemma {:induction false} TotalRemove(t: Table, uid: string)
    requires uid in t
    ensures TotalEntries(t) == |t[uid]| + TotalEntries(t - {uid})
    decreases |t.Keys|
  {
    var u :| u in t && TotalEntries(t) == |t[u]| + TotalEntries(t - {u});
    if u != uid {
      assert (t - {u}).Keys == t.Keys - {u};
      assert (t - {uid}).Keys == t.Keys - {uid};
      TotalRemove(t - {u}, uid);
      TotalRemove(t - {uid}, u);
      assert t - {u} - {uid} == t - {uid} - {u};
    }
  }

  /** Appending one entry raises the total by one. */
  lemma TotalAppend(t: Table, uid: string, e: Entry)
    ensures TotalEntries(Append(t, uid, e)) == TotalEntries(t) + 1
  {
    var t' := Append(t, uid, e);
    TotalRemove(t', uid);
    if uid in t {
      TotalRemove(t, uid);
      assert t' - {uid} == t - {uid};
    } else {
      assert t' - {uid} == t;
    }
  }

  /** Every reference is kept exactly once: the table holds as many entries
      as there are (contour, image reference) pairs. */
  lemma {:induction false} AssociationTotal(refs: seq<ImageRef>, t: Table)
    requires Associate(refs) == Ok(t)
    ensures TotalEntries(t) == |refs|
  {
    if refs == [] {
      assert t == map[];
    } else {
      var init := refs[..|refs| - 1];
      var r := refs[|refs| - 1];
      assert refs == init + [r];
      AssociateStep(init, r);
      var t0 := Associate(init).value;
      AssociationTotal(init, t0);
      TotalAppend(t0, r.uid, Entry(r.roiNumber, Reshape3(r.contourData).value));
    }
  }

  /** The references of a contour carry its ROI number and Contour Data, one
      per Contour Image item. */
  lemma ContourRefsMembers(n: int, c: Contour, r: ImageRef)
    ensures r in ContourRefs(n, c) <==>
      c.contourImageUids.Some? && r.uid in c.contourImageUids.value &&
      r.roiNumber == n && r.contourData == c.contourData
  {
    if c.contourImageUids.Some? && r.uid in c.contourImageUids.value &&
       r.roiNumber == n && r.contourData == c.contourData {
      var k :| 0 <= k < |c.contourImageUids.value| && c.contourImageUids.value[k] == r.uid;
      assert ContourRefs(n, c)[k] == r;
    }
  }

  /** `r` is a reference of contour `j` of `cs`. */
  predicate FromContour(n: int, cs: seq<Contour>, j: int, r: ImageRef)
  {
    0 <= j < |cs| && r in ContourRefs(n, cs[j])
  }

  lemma {:induction false} RoiRefsMembers(n: int, cs: seq<Contour>, r: ImageRef)
    ensures r in RoiRefs(n, cs) <==> exists j :: FromContour(n, cs, j, r)
  {
    if cs != [] {
      var init := cs[..|cs| - 1];
      RoiRefsMembers(n, init, r);
      if exists j :: FromContour(n, cs, j, r) {
        var j :| FromContour(n, cs, j, r);
        if j < |init| {
          assert init[j] == cs[j];
          assert FromContour(n, init, j, r);
        }
      }
      if r in RoiRefs(n, init) {
        var j :| FromContour(n, init, j, r);
        assert cs[j] == init[j];
        assert FromContour(n, cs, j, r);
      }
      assert RoiRefs(n, cs) == RoiRefs(n, init) + ContourRefs(n, cs[|cs| - 1]);
      if r in ContourRefs(n, cs[|cs| - 1]) {
        assert FromContour(n, cs, |cs| - 1, r);
      }
    }
  }

  /** `r` is a reference of contour `j` of ROI Contour item `i`. */
  predicate FromRoiContour(rois: seq<RoiContour>, i: int, j: int, r: ImageRef)
  {
    0 <= i < |rois| && FromContour(rois[i].referencedRoiNumber, rois[i].contours, j, r)
  }

  lemma {:induction false} AllRefsMembers(rois: seq<RoiContour>, r: ImageRef)
    ensures r in AllRefs(rois) <==> exists i, j :: FromRoiContour(rois, i, j, r)
  {
    if rois != [] {
      var init := rois[..|rois| - 1];
      var last := rois[|rois| - 1];
      AllRefsMembers(init, r);
      RoiRefsMembers(last.referencedRoiNumber, last.contours, r);
      if exists i, j :: FromRoiContour(rois, i, j, r) {
        var i, j :| FromRoiContour(rois, i, j, r);
        if i < |init| {
          assert init[i] == rois[i];
          assert FromRoiContour(init, i, j, r);
        } else {
          assert FromContour(last.referencedRoiNumber, last.contours, j, r);
        }
      }
      if r in AllRefs(init) {
        var i, j :| FromRoiContour(init, i, j, r);
        assert rois[i] == init[i];
        assert FromRoiContour(rois, i, j, r);
      }
      if r in RoiRefs(last.referencedRoiNumber, last.contours) {
        var j :| FromContour(last.referencedRoiNumber, last.contours, j, r);
        assert FromRoiContour(rois, |rois| - 1, j, r);
      }
    }
  }

  /** Contour `j` of ROI Contour item `i` lists `uid` in its Contour Image
      sequence, and `e` carries the item's ROI number and the contour's
      points. */
  predicate DrawnOn(rois: seq<RoiContour>, i: int, j: int, uid: string, e: Entry)
  {
    0 <= i < |rois| && 0 <= j < |rois[i].contours| &&
    rois[i].contours[j].contourImageUids.Some? &&
    uid in rois[i].contours[j].contourImageUids.value &&
    e.roiNumber == rois[i].referencedRoiNumber &&
    Reshape3(rois[i].contours[j].contourData) == Some(e.contourData)
  }

  /** Every entry under a UID comes from a contour drawn on that image. */
  lemma EntrySource(rois: seq<RoiContour>, t: Table, uid: string, e: Entry)
    requires Associate(AllRefs(rois)) == Ok(t)
    requires uid in t && e in t[uid]
    ensures exists i, j :: DrawnOn(rois, i, j, uid, e)
  {
    var refs := AllRefs(rois);
    AssociateContents(refs, t);
    EntriesForMembers(refs, uid, e);
    var k :| Yields(refs, k, uid, e);
    AllRefsMembers(rois, refs[k]);
    var i, j :| FromRoiContour(rois, i, j, refs[k]);
    ContourRefsMembers(rois[i].referencedRoiNumber, rois[i].contours[j], refs[k]);
    assert DrawnOn(rois, i, j, uid, e);
  }

  /** Every contour drawn on an image contributes its entry under that
      image's UID. */
  lemma EntryPresent(rois: seq<RoiContour>, t: Table, uid: string, e: Entry, i: int, j: int)
    requires Associate(AllRefs(rois)) == Ok(t)
    requires DrawnOn(rois, i, j, uid, e)
    ensures uid in t && e in t[uid]
  {
    var refs := AllRefs(rois);
    AssociateContents(refs, t);
    var c := rois[i].contours[j];
    var ref := ImageRef(uid, e.roiNumber, c.contourData);
    ContourRefsMembers(rois[i].referencedRoiNumber, c, ref);
    assert FromRoiContour(rois, i, j, ref);
    AllRefsMembers(rois, ref);
    var k :| 0 <= k < |refs| && refs[k] == ref;
    assert Yields(refs, k, uid, e);
    EntriesForMembers(refs, uid, e);
  }

  /** An entry is under `uid` exactly when some contour referencing `uid`
      has that entry's ROI number (its parent's Referenced ROI Number) and
      that entry's points (its Contour Data cut into triples). */
  lemma AssociationMembership(s: StructureSet, t: Table, uid: string, e: Entry)
    requires Associate(StructureSetRefs(s)) == Ok(t)
    ensures (uid in t && e in t[uid]) <==>
      s.roiContours.Some? && exists i, j :: DrawnOn(s.roiContours.value, i, j, uid, e)
  {
    if s.roiContours.Some? {
      var rois := s.roiContours.value;
      if uid in t && e in t[uid] {
        EntrySource(rois, t, uid, e);
      }
      if exists i, j :: DrawnOn(rois, i, j, uid, e) {
        var i, j :| DrawnOn(rois, i, j, uid, e);
        EntryPresent(rois, t, uid, e, i, j);
      }
    } else {
      assert t == map[];
    }
  }

  /** Without a ROI Contour sequence the table is empty. */
  lemma NoRoiContourSequence(s: StructureSet)
    requires s.roiContours.None?
    ensures Associate(StructureSetRefs(s)) == Ok(map[])
  {
  }

  /** A structure set with one ROI whose single contour references a single
      image yields one table entry: that image's UID mapped to the ROI's
      number and the contour's points. */
  lemma SingleContour(n: int, uid: string, points: seq<Point3>)
    ensures
      var c := Contour(Flatten(points), Some([uid]));
      var s := StructureSet(Some([RoiContour(n, [c])]), None);
      Associate(StructureSetRefs(s)) == Ok(map[uid := [Entry(n, points)]])
  {
    var c := Contour(Flatten(points), Some([uid]));
    var rois := [RoiContour(n, [c])];
    var r := ImageRef(uid, n, c.contourData);
    assert UidRefs([uid], n, c.contourData) == [r];
    assert [c][..0] == [];
    assert RoiRefs(n, [c]) == [] + ContourRefs(n, c) == [r];
    assert rois[..0] == [];
    assert AllRefs(rois) == [] + RoiRefs(n, [c]);
    AssociateStep([], r);
    assert [] + [r] == [r];
    ReshapeFlatten(points);
    assert Associate([r]) == Ok(Append(map[], uid, Entry(n, points)));
    assert [] + [Entry(n, points)] == [Entry(n, points)];
    assert StructureSetRefs(StructureSet(Some(rois), None)) == [r];
  }
}
