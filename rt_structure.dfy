/** The parts of an RT Structure Set record that the core reads: the
    Structure Set ROI sequence (section C.8.8.5 of DICOM PS3.3) and the
    ROI Contour sequence (section C.8.8.6 of DICOM PS3.3), with every
    attribute the code probes with `hasattr` as an Option. */
module RtStructure {
  import opened Wrappers

  /** A point in the patient coordinate system, in millimetres. */
  datatype Point3 = Point3(x: real, y: real, z: real)

  /** One item of the Contour sequence: the flat Contour Data and, when the
      Contour Image sequence is present, the Referenced SOP Instance UIDs of
      its items in order. */
  datatype Contour = Contour(contourData: seq<real>, contourImageUids: Option<seq<string>>)

  /** One item of the ROI Contour sequence. */
  datatype RoiContour = RoiContour(referencedRoiNumber: int, contours: seq<Contour>)

  /** One item of the Structure Set ROI sequence. */
  datatype StructureSetRoi = StructureSetRoi(roiNumber: int, roiName: string)

  datatype StructureSet = StructureSet(
    roiContours: Option<seq<RoiContour>>,
    structureSetRois: Option<seq<StructureSetRoi>>)

  /** The flat (x, y, z, x, y, z, ...) layout of a list of points. */
  function Flatten(points: seq<Point3>): (flat: seq<real>)
    ensures |flat| == 3 * |points|
  {
    if points == [] then [] else [points[0].x, points[0].y, points[0].z] + Flatten(points[1..])
  }

  /** `reshape(-1, 3)` of a flat array: consecutive triples, or None when
      the length is not a multiple of three (numpy raises then). */
  function Reshape3(flat: seq<real>): (r: Option<seq<Point3>>)
    ensures r.Some? <==> |flat| % 3 == 0
    ensures r.Some? ==> 3 * |r.value| == |flat|
    ensures r.Some? ==> forall i :: 0 <= i < |r.value| ==>
      r.value[i] == Point3(flat[3 * i], flat[3 * i + 1], flat[3 * i + 2])
    decreases |flat|
  {
    if |flat| % 3 != 0 then None
    else if flat == [] then Some([])
    else
      var rest := Reshape3(flat[3..]);
      Some([Point3(flat[0], flat[1], flat[2])] + rest.value)
  }

  /** Reshaping the flat layout of some points gives those points back. */
  lemma {:induction false} ReshapeFlatten(points: seq<Point3>)
    ensures Reshape3(Flatten(points)) == Some(points)
  {
    if points != [] {
      ReshapeFlatten(points[1..]);
      var flat := Flatten(points);
      assert flat[3..] == Flatten(points[1..]);
      assert Point3(flat[0], flat[1], flat[2]) == points[0];
      assert points == [points[0]] + points[1..];
    }
  }

  /** Every flat list whose length is a multiple of three is the flat layout
      of its reshaped points. */
  lemma {:induction false} FlattenReshape(flat: seq<real>)
    requires |flat| % 3 == 0
    ensures Reshape3(flat).Some? && Flatten(Reshape3(flat).value) == flat
  {
    if flat != [] {
      FlattenReshape(flat[3..]);
      assert flat == flat[..3] + flat[3..];
    }
  }
}
