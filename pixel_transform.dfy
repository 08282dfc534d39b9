/** Patient-to-pixel transform of contour points (`transformar_coordenadas`).
    The point is taken relative to Image Position (Patient); when Image
    Orientation (Patient) is present (section C.7.6.2.1.1 of DICOM PS3.3)
    it is projected onto the two direction cosines, otherwise its x and y
    are used as they are; each result is divided by a Pixel Spacing value
    (section 10.7.1.3 of DICOM PS3.3) and clipped to the raster.

    As in the code, the first coordinate (the column) is divided by the
    FIRST Pixel Spacing value and the second (the row) by the second,
    although the standard lists the row spacing first. */
module PixelTransform {
  import opened Wrappers
  import opened RtStructure

  /** A point in pixel units: column, then row. */
  datatype Point2 = Point2(x: real, y: real)

  /** What the transform reads from an image. */
  datatype ImageGeometry = ImageGeometry(
    imagePosition: Point3,                  // Image Position (Patient)
    orientation: Option<(Point3, Point3)>,  // Image Orientation (Patient), when present
    pixelSpacing: (real, real),             // Pixel Spacing, in stored order
    rows: int,                              // pixel_array.shape[0]
    cols: int)                              // pixel_array.shape[1]

  /** A raster of at least one pixel and spacings the division can use. */
  predicate ValidGeometry(g: ImageGeometry)
  {
    g.rows >= 1 && g.cols >= 1 && g.pixelSpacing.0 != 0.0 && g.pixelSpacing.1 != 0.0
  }

  function Minus(p: Point3, q: Point3): Point3
  {
    Point3(p.x - q.x, p.y - q.y, p.z - q.z)
  }

  function Dot(a: Point3, b: Point3): real
  {
    a.x * b.x + a.y * b.y + a.z * b.z
  }

  /** `np.clip(v, 0, hi)`. */
  function Clip(v: real, hi: int): (r: real)
    requires hi >= 0
    ensures 0.0 <= r <= hi as real
    ensures 0.0 <= v <= hi as real ==> r == v
  {
    if v < 0.0 then 0.0 else if v > hi as real then hi as real else v
  }

  /** The clipped value is the point of [0, hi] nearest to the input. */
  lemma ClipIsNearest(v: real, hi: int, w: real)
    requires hi >= 0 && 0.0 <= w <= hi as real
    ensures Abs(Clip(v, hi) - v) <= Abs(w - v)
  {
  }

  function Abs(x: real): real
  {
    if x < 0.0 then -x else x
  }

  /** The point inside the raster: 0 <= x <= cols - 1 and 0 <= y <= rows - 1. */
  predicate InRaster(q: Point2, g: ImageGeometry)
  {
    0.0 <= q.x <= (g.cols - 1) as real && 0.0 <= q.y <= (g.rows - 1) as real
  }

  /** The unclipped pixel coordinates of a point in oriented mode. */
  function OrientedRaw(p: Point3, g: ImageGeometry, rowDir: Point3, colDir: Point3): Point2
    requires ValidGeometry(g)
  {
    var v := Minus(p, g.imagePosition);
    Point2(Dot(v, rowDir) / g.pixelSpacing.0, Dot(v, colDir) / g.pixelSpacing.1)
  }

  /** The unclipped pixel coordinates of a point in axis-aligned mode. */
  function AlignedRaw(p: Point3, g: ImageGeometry): Point2
    requires ValidGeometry(g)
  {
    Point2((p.x - g.imagePosition.x) / g.pixelSpacing.0, (p.y - g.imagePosition.y) / g.pixelSpacing.1)
  }

  function ClipToRaster(q: Point2, g: ImageGeometry): (r: Point2)
    requires ValidGeometry(g)
    ensures InRaster(r, g)
    ensures InRaster(q, g) ==> r == q
  {
    Point2(Clip(q.x, g.cols - 1), Clip(q.y, g.rows - 1))
  }

  /** The unclipped pixel coordinates of a point, in whichever mode the
      image's attributes select. */
  function RawPixel(p: Point3, g: ImageGeometry): Point2
    requires ValidGeometry(g)
  {
    match g.orientation
    case Some((rowDir, colDir)) => OrientedRaw(p, g, rowDir, colDir)
    case None => AlignedRaw(p, g)
  }

  /** `r` is, coordinate by coordinate, at least as near to `target` as `q`. */
  predicate NoFarther(r: Point2, q: Point2, target: Point2)
  {
    Abs(r.x - target.x) <= Abs(q.x - target.x) && Abs(r.y - target.y) <= Abs(q.y - target.y)
  }

  /** Where one point lands on the image: the raster point nearest, in each
      coordinate, to its unclipped pixel coordinates. */
  function PixelOf(p: Point3, g: ImageGeometry): (r: Point2)
    requires ValidGeometry(g)
    ensures InRaster(r, g)
    ensures InRaster(RawPixel(p, g), g) ==> r == RawPixel(p, g)
    ensures forall q :: InRaster(q, g) ==> NoFarther(r, q, RawPixel(p, g))
  {
    var raw := RawPixel(p, g);
    var r := ClipToRaster(raw, g);
    forall q | InRaster(q, g)
      ensures NoFarther(r, q, raw)
    {
      ClipIsNearest(raw.x, g.cols - 1, q.x);
      ClipIsNearest(raw.y, g.rows - 1, q.y);
    }
    r
  }

  /** The axis-aligned branch, a vectorised expression over all points. */
  function AlignedPixels(points: seq<Point3>, g: ImageGeometry): (out: seq<Point2>)
    requires ValidGeometry(g) && g.orientation.None?
    ensures |out| == |points|
    ensures forall i :: 0 <= i < |out| ==> out[i] == PixelOf(points[i], g) && InRaster(out[i], g)
  {
    seq(|points|, i requires 0 <= i < |points| => ClipToRaster(AlignedRaw(points[i], g), g))
  }

  /** The oriented branch: a loop appending one pixel point per input point. */
  method OrientedPixels(points: seq<Point3>, g: ImageGeometry) returns (out: seq<Point2>)
    requires ValidGeometry(g) && g.orientation.Some?
    ensures |out| == |points|
    ensures forall i :: 0 <= i < |out| ==> out[i] == PixelOf(points[i], g) && InRaster(out[i], g)
  {
    var (rowDir, colDir) := g.orientation.value;
    out := [];
    var i := 0;
    while i < |points|
      invariant 0 <= i <= |points| && |out| == i
      invariant forall k :: 0 <= k < i ==> out[k] == PixelOf(points[k], g) && InRaster(out[k], g)
    {
      var v := Minus(points[i], g.imagePosition);
      var x := Dot(v, rowDir) / g.pixelSpacing.0;
      var y := Dot(v, colDir) / g.pixelSpacing.1;
      x := Clip(x, g.cols - 1);
      y := Clip(y, g.rows - 1);
      out := out + [Point2(x, y)];
      i := i + 1;
    }
  }

  /** `transformar_coordenadas`: one pixel point per contour point, in order,
      each inside the raster. */
  method TransformCoordinates(points: seq<Point3>, g: ImageGeometry) returns (out: seq<Point2>)
    requires ValidGeometry(g)
    ensures |out| == |points|
    ensures forall i :: 0 <= i < |out| ==> out[i] == PixelOf(points[i], g) && InRaster(out[i], g)
  {
    if g.orientation.Some? {
      out := OrientedPixels(points, g);
    } else {
      out := AlignedPixels(points, g);
    }
  }

  /** A point whose unclipped coordinates already lie in the raster is
      mapped to them unchanged, in either mode. */
  lemma InRasterPassesThrough(p: Point3, g: ImageGeometry)
    requires ValidGeometry(g)
    ensures g.orientation.None? && InRaster(AlignedRaw(p, g), g) ==> PixelOf(p, g) == AlignedRaw(p, g)
    ensures g.orientation.Some? && InRaster(OrientedRaw(p, g, g.orientation.value.0, g.orientation.value.1), g) ==>
      PixelOf(p, g) == OrientedRaw(p, g, g.orientation.value.0, g.orientation.value.1)
  {
  }

  /** Axis-aligned mode does not look at z. */
  lemma AlignedIgnoresZ(p: Point3, q: Point3, g: ImageGeometry)
    requires ValidGeometry(g) && g.orientation.None?
    requires p.x == q.x && p.y == q.y
    ensures PixelOf(p, g) == PixelOf(q, g)
  {
  }

  /** With the unrotated orientation (1,0,0), (0,1,0) the oriented mode gives
      what the axis-aligned mode gives. */
  lemma IdentityOrientationIsAligned(p: Point3, g: ImageGeometry)
    requires ValidGeometry(g)
    ensures PixelOf(p, g.(orientation := Some((Point3(1.0, 0.0, 0.0), Point3(0.0, 1.0, 0.0)))))
         == PixelOf(p, g.(orientation := None))
  {
  }

  /** Worked examples: origin 0, no orientation, spacing (1, 1), a 512 x 512
      raster. */
  lemma ClippingExamples()
    ensures var g := ImageGeometry(Point3(0.0, 0.0, 0.0), None, (1.0, 1.0), 512, 512);
      PixelOf(Point3(-5.0, 600.0, 0.0), g) == Point2(0.0, 511.0) &&
      PixelOf(Point3(10.0, 20.0, 0.0), g) == Point2(10.0, 20.0)
  {
  }
}
