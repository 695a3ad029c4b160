# Solar-panel array geometry: a Dafny model

This project models the geometry and parsing layer of the rooftop solar-panel
survey script `take_screenshot.py`. For one KML polygon, the script:

- reads the text of its `<coordinates>` element, a space-separated list of
  `longitude,latitude,elevation` tokens;
- turns the text into a list of `(latitude, longitude)` corners;
- derives the array's heading from the edge between the first two corners;
- takes the plain arithmetic mean of the corners as the array's position;
- assembles a record with a placeholder area.

For the screenshot of each array, the script also crops the 1920 x 1080
browser frame to a centred square. It then marks the image centre and draws
a heading indicator. The model covers that crop-box and marker arithmetic
too.

Modules, in dependency order:

| file | module | models |
|---|---|---|
| `wrappers.dfy` | `Wrappers` | `None` results (`Option`) and raised exceptions (`Result`) |
| `text.dfy` | `Text` | Python's `str.strip()` and `str.split(sep)`, with `Join` as the inverse of `Split` |
| `corners.dfy` | `Corners` | `extract_corners_from` |
| `heading.dfy` | `Heading` | the normalisation in `calculate_bearing`, `calculate_normal_heading` and `calc_solar_array_heading_from` |
| `centroids.dfy` | `Centroids` | `centroid` |
| `frame.dfy` | `Frame` | the arithmetic of `crop`, `add_markers_to`, `add_centre_marker_to` and `add_heading_indicator_to` |
| `panel_array.dfy` | `PanelArray` | `create_solar_panel_array_from` |

Numbers are exact `real`s. Python floats are not. Two operations are taken as
parameters:

- `float()` on a field is a `NumberParser`, which either yields a number or
  fails.
- The spherical forward-azimuth formula, ending in `math.degrees(math.atan2(..))`,
  is an `Atan2Degrees`. Its only promise is a result in [-180, 180].

Python's float `%` takes the sign of the divisor. `FloorMod360` models it
with a floor. Congruence modulo 360 is the predicate `MultipleOf360`.

Two loops work by changing state step by step:

- the list that `extract_corners_from` appends to;
- the two running sums in `centroid`.

Both are methods with loop invariants. Each is proved equal to a function
(`ExtractCorners`, `Mean`), and the lemmas state what those functions
promise.

The rest of the code is expressions only, so it is modelled as functions.

### Where the code and the system's design differ

This model follows the code. The differences:

- **Area and savings.** The design calls for a projected area and a savings
  estimate. The code computes neither: the area is the constant `1234`
  (`take_screenshot.py:69`), and `calc_savings` returns `1234`.
- **Heading range.** The design describes an orientation. The code returns
  `180 - ((bearing + 90) % 360)` without wrapping it. `CalcSolarArrayHeadingFrom`
  proves that, for finite coordinates, this result lies in (-180, 180], not
  in [0, 360).
- **Errors.** The design names `MalformedCoordinateError` and
  `InsufficientCornersError`, with a minimum of three corners. The code has
  neither:
  - A bad token raises `ValueError`: the three-way unpack fails, or
    `float()` fails.
  - With fewer than two corners, `corners[0]` or `corners[1]` raises
    `IndexError`.
  - Two corners are accepted.

  `CornerError`, `HeadingError` and `ArrayError` model these exceptions.
- **Coordinate ranges.** The design constrains latitude and longitude to
  valid ranges. The code checks neither.

## Model

| member | source | states |
|---|---|---|
| Text.Strip | take_screenshot.py:82 | `strip()` leaves a string that is empty or neither starts nor ends with whitespace (Python's `isspace` set) |
| Text.StripIsSlice | take_screenshot.py:82 | the stripped text is a contiguous part of the input, starting after its leading whitespace |
| Text.StripCutsOnlySpace | take_screenshot.py:82 | every character `strip()` removes, on either side of what it keeps, is whitespace |
| Text.StripKeeps | take_screenshot.py:86 | stripping a token that neither starts nor ends with whitespace leaves it unchanged |
| Text.StripIdempotent | take_screenshot.py:86 | stripping twice is stripping once; the per-token `p.strip()` still matters, because splitting on spaces can leave other whitespace (a tab, a newline) at a token's ends |
| Text.Split | take_screenshot.py:82 | `split(sep)` always yields at least one piece; the empty string yields one empty piece |
| Text.SplitCount | take_screenshot.py:82 | a split has exactly one more piece than the string has separators |
| Text.SplitPiecesOmitSeparator | take_screenshot.py:86 | no piece of a split contains the separator |
| Text.JoinSplit | take_screenshot.py:82 | joining the pieces of a split with the separator gives back the original string |
| Text.SplitJoin | take_screenshot.py:82 | splitting the join of separator-free pieces gives back exactly those pieces |
| Corners.ParseCorner | take_screenshot.py:86-91 | one loop iteration: the token yields a corner exactly when it has three fields and `float` accepts the latitude (second) field and the longitude (first) field; the corner's latitude is the second field's value and its longitude the first's |
| Corners.Collect | take_screenshot.py:84-92 | the stop-at-first-raise loop: a completed loop yields exactly one value per item (CollectSucceeds, CollectFirstError and FailureSticks state the rest) |
| Corners.ExtractCorners | take_screenshot.py:81-94 | what `extract_corners_from` returns or raises: on success, one corner per space-separated token |
| Corners.CollectSucceeds | take_screenshot.py:84-92 | a loop that stops at the first exception completes exactly when every item succeeds, and then yields one value per item, in order |
| Corners.CollectFirstError | take_screenshot.py:84-92 | when that loop fails, it raises the error of the first item that fails |
| Corners.FailureSticks | take_screenshot.py:84-92 | once an item has raised, later items do not change the outcome |
| Corners.ExtractCornersFrom | take_screenshot.py:81-94 | the append loop returns what `ExtractCorners` specifies: every token's corner in order, or the first token's error |
| Corners.ExtractCornersPerToken | take_screenshot.py:82-94 | the parser succeeds iff every space-separated token converts; then there is exactly one corner per token, in token order |
| Corners.ExtractCornersFirstError | take_screenshot.py:85-89 | on failure the parser raises the error of the first token that fails |
| Corners.ParseCornerRejectsFieldCount | take_screenshot.py:86 | a token whose stripped text does not hold exactly two commas fails the three-way unpack, with one more field than it has commas |
| Corners.ParseToken | take_screenshot.py:86-91 | a well-formed token `lon,lat,elev` becomes `(lat, lon)`: the fields are swapped, and the elevation is dropped and never converted |
| Corners.LinePoints | take_screenshot.py:82 | well-formed tokens joined by single spaces split back into exactly those tokens |
| Corners.ExtractWellFormed | take_screenshot.py:81-94 | a line of well-formed tokens whose numbers convert yields one `(lat, lon)` corner per token, in order |
| Heading.FloorMod360 | take_screenshot.py:110 | Python's float `x % 360` lies in [0, 360) and differs from `x` by whole turns |
| Heading.FloorMod360Unique | take_screenshot.py:110 | `x % 360` is the only value in [0, 360) congruent to `x` |
| Heading.NormalizeBearing | take_screenshot.py:127 | `(d + 360) % 360` lies in [0, 360) and is congruent to `d` modulo 360 |
| Heading.NormalizeRawBearing | take_screenshot.py:126-127 | for a raw `atan2` angle `d` in [-180, 180], the normalisation adds 360 when `d` is negative and leaves it unchanged otherwise |
| Heading.CalculateBearing | take_screenshot.py:115-129 | the bearing is in [0, 360) and is congruent to the raw `atan2` angle |
| Heading.NormalHeading | take_screenshot.py:110-112 | `180 - ((b + 90) % 360)` lies in (-180, 180] and is congruent to `90 - b`; no wrap into [0, 360) is applied |
| Heading.NormalHeadingCases | take_screenshot.py:110-112 | for a bearing `b` in [0, 360), the heading is `90 - b` when `b < 270` and `450 - b` otherwise |
| Heading.HeadingOfRawBearing | take_screenshot.py:107-127 | from the raw angle `d`, the heading is `90 - d`, or `-270 - d` when `d < -90` |
| Heading.DueEastHeading | take_screenshot.py:110-112 | a due-east edge (bearing 90) gives heading `180 - ((90 + 90) % 360) = 0` |
| Heading.CalculateNormalHeading | take_screenshot.py:107-112 | `calculate_normal_heading` returns a heading in (-180, 180] congruent to `90 - d` for the raw angle `d` between the two points |
| Heading.CalcSolarArrayHeadingFrom | take_screenshot.py:97-104 | raises `IndexError` exactly when there are fewer than two corners; otherwise the heading lies in (-180, 180] and is congruent to `90 - d` for the angle `d` from corner 0 to corner 1 |
| Heading.HeadingIgnoresLaterCorners | take_screenshot.py:97-104 | changing any corner after the second leaves the array heading unchanged |
| Heading.ArrayHeadingValue | take_screenshot.py:97-112 | the array heading is exactly `90 - d`, or `-270 - d` when `d < -90`, for the raw angle `d` from corner 0 to corner 1 |
| Centroids.SumBounds | take_screenshot.py:136-139 | when every value lies in [lo, hi], the running sum lies between `n * lo` and `n * hi` |
| Centroids.AverageWithinBounds | take_screenshot.py:141-142 | dividing the sum by the count gives a value between the lowest and highest bound of the values |
| Centroids.AverageOfConstant | take_screenshot.py:141-142 | the average of equal values is that value |
| Centroids.Mean | take_screenshot.py:132-144 | `centroid` returns `None` exactly for the empty list |
| Centroids.Centroid | take_screenshot.py:132-144 | the accumulator loop returns `None` for no points, and otherwise `(Σlat / n, Σlon / n)` as `Mean` specifies |
| Centroids.MeanWithinBounds | take_screenshot.py:132-144 | each centroid coordinate lies within the range of that coordinate over the points |
| Centroids.MeanOfIdentical | take_screenshot.py:132-144 | copies of one point have that point as their centroid |
| Centroids.UnitSquareCentroid | take_screenshot.py:132-144 | the corners (0,0), (0,1), (1,1), (1,0) have centroid (0.5, 0.5) |
| Frame.CropArea | take_screenshot.py:210-214 | the crop box is a square whose side is the frame height less twice the 140-pixel padding, centred horizontally, spanning rows 140 to height - 140 |
| Frame.CropInsideFrame | take_screenshot.py:210-214 | in a frame taller than both paddings and at least as wide as the remaining height, the crop box is non-empty and lies inside the frame |
| Frame.ScreenCropArea | take_screenshot.py:210-214 | in the 1920 x 1080 window, the crop box is (560, 140, 1360, 940) |
| Frame.MarkerCentre | take_screenshot.py:222 | `width // 2, height // 2` is the middle pixel, rounded down on an odd side |
| Frame.CentreMarkerBox | take_screenshot.py:243-248 | the marker box has side 8 and is centred on the given pixel |
| Frame.MarkerInsideImage | take_screenshot.py:243-248 | in an image at least 8 pixels on each side, the centre marker lies inside the image |
| Frame.ScreenMarker | take_screenshot.py:210-248 | the 800 x 800 crop has its centre at (400, 400) and its marker from (396, 396) to (404, 404) |
| Frame.IndicatorAngle | take_screenshot.py:230 | `(90 - heading) % 360` lies in [0, 360) and is congruent to `90 - heading` |
| Frame.IndicatorRecoversBearing | take_screenshot.py:230 | for the heading computed from a bearing `b` in [0, 360), the indicator angle is `b` itself |
| PanelArray.CreateSolarPanelArrayFrom | take_screenshot.py:59-78 | no coordinates element gives `None`; any record carries area 1234 and a heading in (-180, 180] |
| PanelArray.CreateSucceeds | take_screenshot.py:65-67 | a record is produced exactly when every token converts and there are at least two tokens |
| PanelArray.CreateRecord | take_screenshot.py:65-78 | the record holds the centroid of all corners, the heading of the edge from corner 0 to corner 1, and area 1234 |
| PanelArray.ArrayPositionWithinCorners | take_screenshot.py:68 | the record's position lies in every box that holds all the parsed corners |
| PanelArray.ArrayOfWellFormed | take_screenshot.py:59-94 | end to end: well-formed tokens with convertible numbers give the record of their `(lat, lon)` corners, with the closed-form heading |
| PanelArray.BlankCoordinatesRejected | take_screenshot.py:82-86 | empty or all-whitespace coordinate text raises `ValueError`: one empty token unpacks into one field |
| PanelArray.SinglePointRejected | take_screenshot.py:99-100 | a single well-formed point raises `IndexError` at `corners[1]` |

## Left out

- **Browser automation.** The Selenium and ChromeDriver setup, the Google
  Earth URL and navigation, key presses, clicks and `time.sleep`
  (`take_screenshot.py:19-56`, `147-196`) are I/O, not computation.
- **`main`'s batch loop.** Its loop over placemarks (`take_screenshot.py:40-54`)
  subscripts the result without checking for `None`. It belongs to the
  browser-automation driver, so the model stops at the record one polygon
  yields.
- **KML parsing.** ElementTree parsing and the lookup of the `<coordinates>`
  element (`take_screenshot.py:28-44`, `60`) are not modelled. The input is
  `None` or the found element. An element without text (`None.strip()`
  raises `AttributeError`) is modelled as `MissingText`.
- **PIL calls.** Opening, saving, cropping and drawing are not modelled,
  including how PIL rounds a crop box with real coordinates. Only the box,
  centre and marker arithmetic is modelled.
- **Trigonometry.** The spherical trigonometry in `calculate_bearing`
  (`take_screenshot.py:117-123`) is a parameter whose only promise is a
  result in [-180, 180]. The `cos`/`sin` end point of the heading indicator
  (`take_screenshot.py:233-240`) is not modelled.
- **`float()`.** The string-to-number conversion is a parameter that may
  fail. Which strings Python accepts is not modelled.
- Corners.NumberParser, Heading.CalcSolarArrayHeadingFrom: only finite
  values are modelled. Python's `float()` also accepts `nan`, `inf` and
  `infinity`. A `nan` in corner 0 or 1 propagates through `atan2` and `%`
  to a `nan` heading, outside (-180, 180]. An infinite coordinate there
  makes `math.cos` raise `ValueError` inside `calculate_bearing`
  (`take_screenshot.py:121-122`), a path `HeadingError` does not have. A
  `nan` or infinite coordinate anywhere makes the centroid `nan` or
  infinite (`take_screenshot.py:141-142`).
- **Float rounding.** Numbers are exact reals, so IEEE-754 rounding in the
  sums, the division and `%` is not modelled.
- **Placeholders.** `calc_savings` and the area computation are
  placeholders returning `1234` (`take_screenshot.py:69`, `253-255`). Only
  the constant area is modelled.
- **`model.py`.** `Location` and `Building` are plain field holders and no
  modelled code uses them. `centroid` returns a tuple, which the model
  represents with `Corner`.
