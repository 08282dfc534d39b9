# DICOM RT structure set: contours per image, ROI names, pixel coordinates

A Dafny model of the computational core of a small set of Python scripts that
overlay radiotherapy contours on CT slices. The scripts read an RT Structure
Set and a folder of image files, then do four things:

- They group every contour under the SOP Instance UID of each image it
  references. This is the ROI Contour module, section C.8.8.6 of DICOM PS3.3.
- They build a ROI Number → ROI Name catalog from the Structure Set ROI
  module (section C.8.8.5 of DICOM PS3.3). A number without a name resolves
  to the label `ROI <n>`.
- They map contour points from patient coordinates to an image's pixel grid.
  The inputs are Image Position (Patient), the optional Image Orientation
  (Patient) (section C.7.6.2.1.1 of DICOM PS3.3), Pixel Spacing (section
  10.7.1.3 of DICOM PS3.3) and the raster size. The result is clipped to the
  raster.
- They find an image's UID from its file name, ignoring case.

A second script lists the (number, name) pairs of two structure sets, sorted
as Python sorts tuples. It pads the shorter list with `("", "")` rows and
builds four columns of equal length from them.

Modules, one file each:

- `Wrappers` has `Option` and `Result`.
- `RtStructure` is the record as the code reads it. Every attribute that the
  code probes with `hasattr` is an `Option`. It also models `reshape(-1, 3)`
  of Contour Data.
- `ContourAssociation` models `extraer_contornos_por_imagen`. Its three
  nested loops are one method per loop level. The result is proved equal to
  `Associate`, a fold over the flat list of (UID, ROI number, Contour Data)
  references in ROI, contour, reference order. The table's contents, its
  total size and the origin of every entry are proved about `Associate`.
- `RoiCatalog` models `extraer_nombres_rois` and the
  `organ_dict.get(n, f"ROI {n}")` lookup. ROI numbers are integers, and the
  label uses their canonical decimal form, whose parse back is proved.
- `PixelTransform` models `transformar_coordenadas`. The oriented branch is a
  loop method and the axis-aligned branch a vectorised function. Arithmetic is
  on exact reals.
- `ImageLookup` models `encontrar_uid_por_nombre` over the image dictionary's
  items in insertion order.
- `RoiInfo` models `extract_roi_info` (collect, then `sorted`), the padding
  and the column construction of the listing script.

Notes on the behaviour modelled:

- Contour Data whose length is not a multiple of three makes `reshape` raise.
  The exception aborts the whole extraction, and it is raised only for a
  contour that has at least one Contour Image item. For decoded Contour Data
  the model returns `Err(MalformedContourData(length))` in exactly those
  cases. A malformed
  contour is not skipped: the exception ends the whole extraction, and the
  model follows the code.
- A UID that no contour references is absent from the table. It is not
  mapped to an empty list.
- The first pixel coordinate (the column, x) is divided by the first Pixel
  Spacing value. The standard orders Pixel Spacing as (row spacing, column
  spacing). The model keeps the code's order.
- `extract_roi_info` reads `StructureSetROISequence` without checking that it
  exists, so a record without it raises. The model returns
  `Err(MissingStructureSetRoiSequence)`.

## Model

| member | source | states |
|---|---|---|
| `RtStructure.Reshape3` | dicom_image.py:50 | `reshape(-1, 3)` succeeds iff the length is a multiple of 3. Point i is then (flat[3i], flat[3i+1], flat[3i+2]), and there are len/3 points |
| `RtStructure.ReshapeFlatten` | dicom_image.py:50 | reshaping the flat layout of a point list gives the list back |
| `RtStructure.FlattenReshape` | dicom_image.py:50 | every flat list whose length is a multiple of 3 is the flat layout of its reshaped points |
| `ContourAssociation.ExtractContoursPerImage` | dicom_image.py:32-53 | the three nested loops return exactly `Associate` of the structure set's references in ROI, contour, reference order. Without a ROI Contour sequence the list of references is empty |
| `ContourAssociation.AppendRoiContour` | dicom_image.py:37-51 | the middle loop over one ROI Contour item's contours extends the table as `Associate` does for that item's references, or fails as it does |
| `ContourAssociation.AppendContour` | dicom_image.py:41-51 | the inner loop over one contour's Contour Image items appends one entry per item. With no Contour Image sequence it appends nothing. Unreshapable Contour Data raises |
| `ContourAssociation.ErrPersists` | dicom_image.py:50 | once a reference fails to reshape, every longer list of references fails with the same error. The exception ends the extraction |
| `ContourAssociation.AssociateSucceedsIff` | dicom_image.py:48-51 | the extraction succeeds iff every referenced contour's Contour Data length is divisible by 3 |
| `ContourAssociation.AssociateContents` | dicom_image.py:45-51 | the keys are exactly the referenced UIDs. Each key's list is the entries of the references to it, in source order, with repeats kept. No list is empty |
| `ContourAssociation.AssociationTotal` | dicom_image.py:40-51 | the total number of entries over all keys equals the number of (contour, image reference) pairs |
| `ContourAssociation.AddEntry` | dicom_image.py:45-51 | creating the UID's list when it is missing, then appending, is exactly `Append`: the UID's list gains the entry at its end and no other key changes |
| `ContourAssociation.TotalAppend` | dicom_image.py:45-51 | one `append` raises the table's total by exactly one, whether or not the key was new |
| `ContourAssociation.ContentsAt` | dicom_image.py:45-51 | for one UID: it is a key iff some reference names it, and its list is the entries of those references in order |
| `ContourAssociation.EntrySource` | dicom_image.py:36-51 | every entry under a UID comes from a contour whose Contour Image items reference that UID |
| `ContourAssociation.EntryPresent` | dicom_image.py:36-51 | every contour that references a UID contributes its entry under that UID |
| `ContourAssociation.AssociationMembership` | dicom_image.py:36-51 | an entry is under a UID iff some contour referencing that UID has the entry's ROI number (its parent's Referenced ROI Number) and the entry's points (its Contour Data in triples) |
| `ContourAssociation.NoRoiContourSequence` | dicom_image.py:36 | without a ROI Contour sequence the table is empty |
| `ContourAssociation.SingleContour` | dicom_image.py:32-53 | one ROI numbered n with one contour on one image yields exactly {uid: [(n, the contour's points)]} |
| `RoiCatalog.ExtractRoiNames` | dicom_image.py:55-63 | the loop returns the catalog of the Structure Set ROI sequence, which is empty when the sequence is absent |
| `RoiCatalog.CatalogKeys` | dicom_image.py:59-61 | the catalog's keys are exactly the listed ROI Numbers |
| `RoiCatalog.CatalogLastWins` | dicom_image.py:60-61 | a number listed more than once maps to the name of its last item |
| `RoiCatalog.DecimalRoundTrip` | dicom_image.py:109 | the canonical decimal form of an integer, negative ones included, parses back to n |
| `RoiCatalog.DecimalString` | dicom_image.py:109 | `str(n)` is a canonical numeral: digits without a leading zero, after a minus sign for a negative number |
| `RoiCatalog.NumeralCanonical` | dicom_image.py:109 | every canonical numeral is `str` of the number it denotes, so each integer has exactly one numeral |
| `RoiCatalog.FallbackLabel` | dicom_image.py:109 | the default label `f"ROI {n}"` is `ROI ` followed by a canonical numeral that parses back to n, which is therefore n's own numeral |
| `RoiCatalog.FallbackLabelInjective` | dicom_image.py:109 | distinct unnamed numbers get distinct `ROI n` labels |
| `RoiCatalog.ResolveListedNumber` | dicom_image.py:109 | a number listed in the Structure Set ROI sequence resolves to the name of its last listed item |
| `RoiCatalog.ResolveRoiName` | dicom_image.py:109 | `dict.get` with a default never fails: the catalog's name when n is a key, otherwise `ROI ` followed by the canonical numeral of n |
| `RoiCatalog.ResolveUnlistedNumber` | dicom_image.py:109 | a number not listed resolves, without failing, to `ROI ` + the decimal form of n, from which n can be read back |
| `RoiCatalog.FallbackExample` | dicom_image.py:109 | with {1: "Heart"}, number 7 resolves to "ROI 7" and number 1 to "Heart" |
| `PixelTransform.Clip` | dicom_image.py:78-79 | `np.clip(v, 0, hi)` lies in [0, hi] and is the identity on values already there |
| `PixelTransform.ClipIsNearest` | dicom_image.py:78-79 | the clipped value is the point of [0, hi] nearest to the input |
| `PixelTransform.ClipToRaster` | dicom_image.py:78-79 | clipped points satisfy 0 <= x <= cols-1 and 0 <= y <= rows-1. Points already inside pass unchanged |
| `PixelTransform.PixelOf` | dicom_image.py:71-86 | one point's pixel position lies in the raster. In each coordinate it is the raster value nearest to the unclipped projection (oriented or axis-aligned, as the image selects), and equals that projection when it is already inside |
| `PixelTransform.OrientedPixels` | dicom_image.py:71-81 | the oriented loop returns one point per input point, in order. Each is the projection of (p − position) onto the two direction cosines, divided by ps[0] and ps[1], then clipped into the raster |
| `PixelTransform.AlignedPixels` | dicom_image.py:82-87 | the vectorised branch returns one point per input point, in order, each inside the raster |
| `PixelTransform.TransformCoordinates` | dicom_image.py:65-87 | in both modes, one pixel point per contour point, in order. Each is the point's own transform (`PixelOf`) and lies inside the raster |
| `PixelTransform.InRasterPassesThrough` | dicom_image.py:74-87 | a point whose unclipped coordinates are already in the raster is mapped to them unchanged, in either mode |
| `PixelTransform.AlignedIgnoresZ` | dicom_image.py:83-84 | axis-aligned mode does not depend on z |
| `PixelTransform.IdentityOrientationIsAligned` | dicom_image.py:71-87 | orientation (1,0,0), (0,1,0) gives the same result as axis-aligned mode |
| `PixelTransform.ClippingExamples` | dicom_image.py:83-87 | origin 0, spacing (1, 1), 512 × 512: (−5, 600, 0) ↦ (0, 511) and (10, 20, 0) ↦ (10, 20) |
| `ImageLookup.Lower` | dicom_image.py:132 | ASCII `lower()` keeps the length |
| `ImageLookup.SameNameCharwise` | dicom_image.py:132 | two names match iff they have the same length and agree letter by letter once lowered |
| `ImageLookup.FindUidByName` | dicom_image.py:129-134 | returns None iff no file name matches case-insensitively. Otherwise it returns the UID of the first match in insertion order |
| `RoiInfo.PairLeTotalOrder` | roi_info.py:13 | Python's tuple order on (number, name) is reflexive, total, antisymmetric and transitive |
| `RoiInfo.Insert` | roi_info.py:13 | inserting into a sorted list gives a sorted list holding one more copy of the pair |
| `RoiInfo.SortPairs` | roi_info.py:13 | `sorted` returns a sorted permutation of its input |
| `RoiInfo.SortedPermutationUnique` | roi_info.py:13 | two sorted permutations of one list are equal, so `sorted`'s result is determined whatever the algorithm |
| `RoiInfo.ExtractRoiInfo` | roi_info.py:8-13 | fails iff the Structure Set ROI sequence is absent. Otherwise it returns the (number, name) pairs of the sequence as a permutation sorted by number, then name |
| `RoiInfo.Blanks` | roi_info.py:21-22 | `[("", "")] * n` is n blank rows, and none when n <= 0 |
| `RoiInfo.EqualizeLengths` | roi_info.py:19-22 | both lists end with length max(len1, len2). Each keeps its original list as a prefix and is followed only by ("", ""). The longer one is unchanged |
| `RoiInfo.CompareRoiLists` | roi_info.py:19-30 | the four columns have the same length, max(len1, len2). Each list's numbers and names come first, then "" |

## Left out

- `cargar_contorno_y_imagenes` (dicom_image.py:7-30) is left out: directory listing, `pydicom.dcmread` and printing per-file errors are file-system I/O and a foreign decoder. The model takes the decoded records as values.
- `graficar_imagen_con_contorno` (dicom_image.py:89-127) is left out apart from the name lookup at line 109. Percentile windowing is floating-point statistics and the rest is matplotlib drawing.
- `mostrar_informacion_diagnostica` (dicom_image.py:136-146) and dicom_info.py only print, so they are left out. dicom_info.py is not part of this model.
- The top-level script (dicom_image.py:148-183) is left out. It is hard-coded paths, reading the folder (line 152), printing and plotting (lines 175-181) around calls to the modelled catalog, extraction and lookup (lines 159-167).
- roi_info.py: the `pydicom.dcmread` call and the printing of the DataFrame are left out. The columns are modelled as four sequences.
- Floating point: numpy doubles are modelled as exact reals, so rounding is not modelled.
- PixelTransform.TransformCoordinates: requires rows, cols >= 1 and two nonzero Pixel Spacing values. With a zero spacing numpy yields inf or nan, and the reals have no counterpart.
- Decoding of `pixel_array` is left out. Its shape is given as the geometry's `rows` and `cols`.
- Image Orientation (Patient) is always six values in the model, so the exception that `reshape(2, 3)` raises for any other count is not represented.
- An image without Image Position (Patient) or Pixel Spacing makes the code raise. The geometry record always carries both, so that error path is not represented.
- ContourAssociation.AssociateSucceedsIff: holds only for ROI Contour items that carry a Contour Sequence. The code reads that sequence without checking for it (dicom_image.py:40), so an item without one makes it raise AttributeError. The model always has the sequence (possibly empty), so that failure is not represented. Contour Sequence is Type 3 in section C.8.8.6 of DICOM PS3.3: a conforming file with an uncontoured ROI does reach this path, and the model then succeeds where the code raises.
- ContourAssociation.AssociateSucceedsIff: also holds for decoded values only, because absent or empty Type 1 attributes are not represented. A missing Referenced ROI Number (dicom_image.py:38), Referenced SOP Instance UID (dicom_image.py:43) or Contour Data (dicom_image.py:50) makes the code raise AttributeError. An empty Contour Data decodes to `None`, so its `reshape(-1, 3)` raises too. The model always carries decoded values: empty Contour Data is the empty list, which reshapes to no points, and the extraction succeeds. Section C.8.8.6 of DICOM PS3.3 makes all of these attributes Type 1, so conforming files do not reach these paths.
- RoiCatalog.FallbackLabel: ROI numbers are modelled as integers, and the label is built from their canonical decimal form. pydicom keeps an IS value's text as stored in the file, so a number stored as "007", "+7" or "7.0" gives that text in the label ("ROI 007"). The model gives "ROI 7" for all of them.
- ImageLookup.Lower: `str.lower()` is modelled for ASCII letters only. Unicode case mappings, including those that change the length, are left out.
- The image dictionary is modelled as its items in insertion order. The uniqueness of its keys is not used by any proof and is not stated.
- RoiCatalog.ExtractRoiNames: every Structure Set ROI item carries both ROI Number and ROI Name in the model. An item without either makes the code raise AttributeError (dicom_image.py:61), and the model returns a catalog instead. Section C.8.8.5 of DICOM PS3.3 makes ROI Number Type 1 and ROI Name Type 2, so conforming files carry both.
- RoiInfo.ExtractRoiInfo: fails only when the Structure Set ROI sequence is absent. An item without ROI Number or ROI Name also makes the code raise AttributeError (roi_info.py:12), and that failure is not represented. Conforming files carry both attributes (Type 1 and Type 2 in section C.8.8.5 of DICOM PS3.3).
- RoiInfo.ExtractRoiInfo: states the result as a sorted permutation. `RoiInfo.SortedPermutationUnique` shows this fixes the result, so Python's Timsort is not modelled step by step.
