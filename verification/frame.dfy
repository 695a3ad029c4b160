/**
 * The arithmetic of the screenshot post-processing: the crop box cut out of
 * the browser frame, the centre of the cropped image, the square box of the
 * red centre marker, and the angle of the blue heading indicator. The
 * drawing itself is not modelled.
 */
module Frame {
  import opened Heading

  /** The browser window's width in pixels. */
  const Width: int := 1920

  /** The browser window's height in pixels. */
  const Height: int := 1080

  /** Rows cut from the top (the search bar) and from the bottom (the map icons). */
  const VerticalPadding: int := 140

  /** The side of the red centre marker, in pixels. */
  const DotSize: int := 8

  /** A crop box `(left, upper, right, lower)`; the horizontal padding is a true division, so a real. */
  datatype Box = Box(left: real, upper: real, right: real, lower: real)

  /**
   * `crop`'s box for a `width` by `height` frame: the padding is taken off the
   * top and the bottom, and the same length is kept across the middle of the
   * width. The box is a square whose side is the remaining height, centred
   * horizontally, and flush with the vertical padding.
   */
  function CropArea(width: int, height: int): (b: Box)
    ensures b.right - b.left == b.lower - b.upper == (height - 2 * VerticalPadding) as real
    ensures b.left + b.right == width as real
    ensures b.upper == VerticalPadding as real && b.lower == (height - VerticalPadding) as real
  {
    var imageHeight := height - VerticalPadding * 2;
    var horizontalPadding := (width - imageHeight) as real / 2.0;
    Box(horizontalPadding, VerticalPadding as real, width as real - horizontalPadding, (height - VerticalPadding) as real)
  }

  /**
   * When the frame is taller than both paddings and at least as wide as the
   * remaining height, the crop box is a non-empty box inside the frame.
   */
  lemma CropInsideFrame(width: int, height: int)
    requires height > 2 * VerticalPadding && width >= height - 2 * VerticalPadding
    ensures var b := CropArea(width, height);
      && 0.0 <= b.left < b.right <= width as real
      && 0.0 < b.upper < b.lower < height as real
  {
  }

  /** In the 1920 x 1080 window the crop box is the 800 x 800 square (560, 140, 1360, 940). */
  lemma ScreenCropArea()
    ensures CropArea(Width, Height) == Box(560.0, 140.0, 1360.0, 940.0)
  {
  }

  /** A pixel position `(x, y)`. */
  datatype Pixel = Pixel(x: int, y: int)

  /**
   * `add_markers_to`'s centre: each side halved with Python's floor division,
   * which for the non-negative sizes of an image is Dafny's `/`. The centre
   * is the middle pixel, rounded down when the side is odd.
   */
  function MarkerCentre(width: nat, height: nat): (c: Pixel)
    ensures 2 * c.x <= width <= 2 * c.x + 1
    ensures 2 * c.y <= height <= 2 * c.y + 1
  {
    Pixel(width / 2, height / 2)
  }

  /** The corners of the ellipse that draws the centre marker. */
  datatype MarkerBox = MarkerBox(topLeft: Pixel, bottomRight: Pixel)

  /**
   * `add_centre_marker_to`: the box of side `DotSize` centred on the given
   * pixel, half the dot size (floor division) on every side.
   */
  function CentreMarkerBox(centre: Pixel): (b: MarkerBox)
    ensures b.bottomRight.x - b.topLeft.x == DotSize && b.bottomRight.y - b.topLeft.y == DotSize
    ensures b.topLeft.x + b.bottomRight.x == 2 * centre.x
    ensures b.topLeft.y + b.bottomRight.y == 2 * centre.y
  {
    var half := DotSize / 2;
    MarkerBox(Pixel(centre.x - half, centre.y - half), Pixel(centre.x + half, centre.y + half))
  }

  /** In an image at least `DotSize` pixels on each side, the centre marker lies inside the image. */
  lemma MarkerInsideImage(width: nat, height: nat)
    requires width >= DotSize && height >= DotSize
    ensures var b := CentreMarkerBox(MarkerCentre(width, height));
      && 0 <= b.topLeft.x && b.bottomRight.x <= width
      && 0 <= b.topLeft.y && b.bottomRight.y <= height
  {
  }

  /**
   * The 800 x 800 crop of the window has its centre at (400, 400) and the
   * marker box from (396, 396) to (404, 404).
   */
  lemma ScreenMarker()
    ensures var b := CropArea(Width, Height);
      && b.right - b.left == 800.0 && b.lower - b.upper == 800.0
      && MarkerCentre(800, 800) == Pixel(400, 400)
      && CentreMarkerBox(Pixel(400, 400)) == MarkerBox(Pixel(396, 396), Pixel(404, 404))
  {
  }

  /**
   * `add_heading_indicator_to`'s angle before the conversion to radians:
   * `(90 - heading) % 360`, a value in [0, 360) a quarter turn from the
   * reversed heading.
   */
  function IndicatorAngle(heading: real): (a: real)
    ensures 0.0 <= a < 360.0
    ensures MultipleOf360(a - (90.0 - heading))
  {
    var a := FloorMod360(90.0 - heading);
    Turns(a - (90.0 - heading), -((90.0 - heading) / 360.0).Floor);
    a
  }

  /**
   * The indicator undoes the normal-heading turn: for the heading computed
   * from a bearing `b` in [0, 360), the indicator angle is `b` itself.
   */
  lemma IndicatorRecoversBearing(b: real)
    requires 0.0 <= b < 360.0
    ensures IndicatorAngle(NormalHeading(b)) == b
  {
    NormalHeadingCases(b);
    var h := NormalHeading(b);
    Turns((90.0 - h) - b, if b < 270.0 then 0 else -1);
    FloorMod360Unique(90.0 - h, b);
  }
}
