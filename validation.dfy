/** `soil_api/utils/validation_helpers.py`: the checks made on a request before any raster is
    read. A check either passes or fails with the HTTP error it raises. Coordinates are only
    compared, so they are modelled as reals. */
module Validation {
  import opened Wrappers

  /** The region of interest, `ISRIC_ROI` in `soil_api/constants.py`. */
  const MinLat: real := -90.0
  const MaxLat: real := 90.0
  const MinLon: real := -180.0
  const MaxLon: real := 180.0

  datatype ErrorKind = OutsideRegionOfInterest | InvalidBbox

  /** An `HTTPException`: its status code and which of the two details it carries. */
  datatype HttpError = HttpError(statusCode: int, kind: ErrorKind)

  /** A bounding box in query order: lower-left corner, then upper-right corner. */
  datatype Bbox = Bbox(minLon: real, minLat: real, maxLon: real, maxLat: real)

  predicate WithinRegionOfInterest(latitude: real, longitude: real) {
    MinLat <= latitude <= MaxLat && MinLon <= longitude <= MaxLon
  }

  /** `validate_coordinates`. */
  function ValidateCoordinates(latitude: real, longitude: real): Outcome<HttpError> {
    if WithinRegionOfInterest(latitude, longitude) then Pass
    else Fail(HttpError(404, OutsideRegionOfInterest))
  }

  /** `validate_bbox`. Only the corner order is checked; the box is not compared with the
      region of interest. */
  function ValidateBbox(bbox: Bbox): Outcome<HttpError> {
    if bbox.minLon > bbox.maxLon || bbox.minLat > bbox.maxLat then Fail(HttpError(400, InvalidBbox))
    else Pass
  }

  /** A point passes exactly when both coordinates lie in the closed ranges [-90, 90] and
      [-180, 180]; every other point is refused with status 404. */
  lemma {:induction false} ValidateCoordinatesExact(latitude: real, longitude: real)
    ensures ValidateCoordinates(latitude, longitude).Pass? <==>
      -90.0 <= latitude <= 90.0 && -180.0 <= longitude <= 180.0
    ensures ValidateCoordinates(latitude, longitude).Fail? ==>
      ValidateCoordinates(latitude, longitude).error == HttpError(404, OutsideRegionOfInterest)
  {
  }

  /** The bounds are inclusive: the four corners of the region pass, and stepping past any one
      bound fails. */
  lemma {:induction false} RegionBoundsInclusive(eps: real)
    requires eps > 0.0
    ensures ValidateCoordinates(-90.0, -180.0).Pass? && ValidateCoordinates(90.0, 180.0).Pass?
    ensures ValidateCoordinates(-90.0, 180.0).Pass? && ValidateCoordinates(90.0, -180.0).Pass?
    ensures ValidateCoordinates(90.0 + eps, 0.0).Fail? && ValidateCoordinates(-90.0 - eps, 0.0).Fail?
    ensures ValidateCoordinates(0.0, 180.0 + eps).Fail? && ValidateCoordinates(0.0, -180.0 - eps).Fail?
  {
  }

  /** A point lies in the closed box. */
  predicate Contains(bbox: Bbox, longitude: real, latitude: real) {
    bbox.minLon <= longitude <= bbox.maxLon && bbox.minLat <= latitude <= bbox.maxLat
  }

  /** A box is refused with status 400 exactly when bbox[0] > bbox[2] or bbox[1] > bbox[3],
      which is exactly when it contains no point at all. */
  lemma {:induction false} ValidateBboxExact(bbox: Bbox)
    ensures ValidateBbox(bbox).Fail? <==> bbox.minLon > bbox.maxLon || bbox.minLat > bbox.maxLat
    ensures ValidateBbox(bbox).Fail? ==> ValidateBbox(bbox).error == HttpError(400, InvalidBbox)
    ensures ValidateBbox(bbox).Pass? <==> exists lon, lat :: Contains(bbox, lon, lat)
  {
    if ValidateBbox(bbox).Pass? {
      assert Contains(bbox, bbox.minLon, bbox.minLat);
    }
  }

  /** A degenerate box (equal bounds on an axis) is accepted, and a violation on either axis
      alone is enough to refuse the box. */
  lemma {:induction false} ValidateBboxAxes(lon: real, lat: real, a: real, b: real)
    requires a > b
    ensures ValidateBbox(Bbox(lon, lat, lon, lat)).Pass?
    ensures ValidateBbox(Bbox(a, lat, b, lat)).Fail?
    ensures ValidateBbox(Bbox(lon, a, lon, b)).Fail?
  {
  }

  /** `[10, 60, 9, 61]`, whose minimum longitude exceeds its maximum, is refused, and
      `[9, 60, 10, 61]` is accepted. */
  lemma {:induction false} ValidateBboxExamples()
    ensures ValidateBbox(Bbox(10.0, 60.0, 9.0, 61.0)) == Fail(HttpError(400, InvalidBbox))
    ensures ValidateBbox(Bbox(9.0, 60.0, 10.0, 61.0)) == Pass
  {
  }
}
