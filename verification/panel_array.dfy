/**
 * `create_solar_panel_array_from`: turns the `<coordinates>` element of one
 * KML polygon into the record of a solar-panel array, with its centroid, its
 * heading and a placeholder area. The element lookup itself is not modelled:
 * its outcome is the input.
 */
module PanelArray {
  import opened Wrappers
  import opened Corners
  import opened Heading
  import opened Centroids
  import opened Text

  /** The area every record carries; the code has no area computation yet. */
  const PlaceholderArea: int := 1234

  /** A found `<coordinates>` element; `text` is `None` when the element is empty. */
  datatype CoordinatesElement = CoordinatesElement(text: Option<string>)

  /** The dictionary the function returns. */
  datatype SolarPanelArray = SolarPanelArray(latitude: real, longitude: real, headingDegs: real, area: int)

  /** What Python raises on the way to a record. */
  datatype ArrayError =
    | MissingText                          // `None.strip()` raises AttributeError
    | CornerValueError(corner: CornerError) // from `extract_corners_from`
    | CornerIndexError(heading: HeadingError) // from `calc_solar_array_heading_from`

  /**
   * `create_solar_panel_array_from`: `None` when the polygon has no
   * coordinates element; otherwise the corners are parsed, the heading is
   * taken from the first two, and the centroid of all of them becomes the
   * record's position.
   */
  function CreateSolarPanelArrayFrom(coordinates: Option<CoordinatesElement>, float: NumberParser, atan2Degrees: Atan2Degrees)
    : (r: Result<Option<SolarPanelArray>, ArrayError>)
    ensures coordinates.None? ==> r == Success(None)
    ensures coordinates.Some? && r.Success? ==> r.value.Some? && r.value.value.area == PlaceholderArea
    ensures r.Success? && r.value.Some? ==> -180.0 < r.value.value.headingDegs <= 180.0
  {
    match coordinates
    case None => Success(None)
    case Some(element) =>
      match element.text
      case None => Failure(MissingText)
      case Some(text) =>
        match ExtractCorners(text, float)
        case Failure(e) => Failure(CornerValueError(e))
        case Success(corners) =>
          match CalcSolarArrayHeadingFrom(corners, atan2Degrees)
          case Failure(e) => Failure(CornerIndexError(e))
          case Success(headingDegs) =>
            var centre := Mean(corners).value;
            Success(Some(SolarPanelArray(centre.lat, centre.lon, headingDegs, PlaceholderArea)))
  }

  /**
   * A record is produced exactly when every token of the text converts and
   * there are at least two of them.
   */
  lemma CreateSucceeds(text: string, float: NumberParser, atan2Degrees: Atan2Degrees)
    ensures var tokens := Points(text);
      var r := CreateSolarPanelArrayFrom(Some(CoordinatesElement(Some(text))), float, atan2Degrees);
      r.Success? <==>
        && (forall i :: 0 <= i < |tokens| ==> ParseCorner(tokens[i], float).Success?)
        && |tokens| >= 2
  {
    ExtractCornersPerToken(text, float);
  }

  /**
   * The record built from parsed corners: the centroid of all of them, the
   * heading of the edge from the first corner to the second (`90 - d`, or
   * `-270 - d` when the raw `atan2` angle `d` is below -90 degrees), and the
   * placeholder area.
   */
  lemma CreateRecord(text: string, corners: seq<Corner>, float: NumberParser, atan2Degrees: Atan2Degrees)
    requires ExtractCorners(text, float) == Success(corners) && |corners| >= 2
    ensures var d := atan2Degrees(corners[0], corners[1]);
      CreateSolarPanelArrayFrom(Some(CoordinatesElement(Some(text))), float, atan2Degrees)
        == Success(Some(SolarPanelArray(Mean(corners).value.lat, Mean(corners).value.lon,
                                        if d < -90.0 then -270.0 - d else 90.0 - d, PlaceholderArea)))
  {
    ArrayHeadingValue(corners, atan2Degrees);
  }

  /**
   * The record's position lies in the bounding box of the corners: any box
   * holding every parsed corner holds it.
   */
  lemma ArrayPositionWithinCorners(text: string, float: NumberParser, atan2Degrees: Atan2Degrees,
                                   latLo: real, latHi: real, lonLo: real, lonHi: real)
    requires ExtractCorners(text, float).Success?
    requires var corners := ExtractCorners(text, float).value;
      forall i :: 0 <= i < |corners| ==> latLo <= corners[i].lat <= latHi && lonLo <= corners[i].lon <= lonHi
    ensures var r := CreateSolarPanelArrayFrom(Some(CoordinatesElement(Some(text))), float, atan2Degrees);
      r.Success? ==> latLo <= r.value.value.latitude <= latHi && lonLo <= r.value.value.longitude <= lonHi
  {
    var corners := ExtractCorners(text, float).value;
    if |corners| >= 2 {
      MeanWithinBounds(corners, latLo, latHi, lonLo, lonHi);
    }
  }

  /**
   * End to end: for well-formed tokens whose numbers convert, the record
   * holds the centroid of the `(lat, lon)` corners and the heading of the
   * edge from the first corner to the second: `90 - d`, or `-270 - d` when
   * the raw `atan2` angle `d` is below -90 degrees.
   */
  lemma {:induction false} ArrayOfWellFormed(cs: seq<CoordinateText>, float: NumberParser, atan2Degrees: Atan2Degrees)
    requires |cs| >= 2
    requires forall i :: 0 <= i < |cs| ==> WellFormed(cs[i])
    requires forall i :: 0 <= i < |cs| ==> float(cs[i].lat).Some? && float(cs[i].lon).Some?
    ensures var corners := seq(|cs|, i requires 0 <= i < |cs| => Corner(float(cs[i].lat).value, float(cs[i].lon).value));
      var d := atan2Degrees(corners[0], corners[1]);
      CreateSolarPanelArrayFrom(Some(CoordinatesElement(Some(CoordinateLine(cs)))), float, atan2Degrees)
        == Success(Some(SolarPanelArray(Mean(corners).value.lat, Mean(corners).value.lon,
                                        if d < -90.0 then -270.0 - d else 90.0 - d, PlaceholderArea)))
  {
    var corners := seq(|cs|, i requires 0 <= i < |cs| => Corner(float(cs[i].lat).value, float(cs[i].lon).value));
    ExtractWellFormed(cs, float);
    assert ExtractCorners(CoordinateLine(cs), float).value == corners;
    CreateRecord(CoordinateLine(cs), corners, float, atan2Degrees);
  }

  /** An element with empty (or all-whitespace) text fails the unpack: one empty token, one field. */
  lemma BlankCoordinatesRejected(text: string, float: NumberParser, atan2Degrees: Atan2Degrees)
    requires Strip(text) == []
    ensures CreateSolarPanelArrayFrom(Some(CoordinatesElement(Some(text))), float, atan2Degrees)
      == Failure(CornerValueError(Unpack(1)))
  {
    assert Points(text) == [[]];
    assert Fields([]) == [[]];
    CollectFirstError(TokenOutcomes(Points(text), float), 0);
  }

  /** A single well-formed point gives no second corner: `corners[1]` raises IndexError. */
  lemma SinglePointRejected(c: CoordinateText, float: NumberParser, atan2Degrees: Atan2Degrees)
    requires WellFormed(c)
    requires float(c.lat).Some? && float(c.lon).Some?
    ensures CreateSolarPanelArrayFrom(Some(CoordinatesElement(Some(CoordinateLine([c])))), float, atan2Degrees)
      == Failure(CornerIndexError(TooFewCorners(1)))
  {
    ExtractWellFormed([c], float);
  }
}
