/**
 * The corner parser: the text of a KML `<coordinates>` element, a
 * space-separated list of `longitude,latitude,elevation` tokens, becomes the
 * list of `(latitude, longitude)` corners of a solar-panel array polygon.
 */
module Corners {
  import opened Wrappers
  import opened Text

  /** A polygon corner, in the order the source's tuples use: latitude first. */
  datatype Corner = Corner(lat: real, lon: real)

  /**
   * Python's `float(text)`, which either yields a number or raises
   * `ValueError`. The conversion itself is not modelled; callers supply it.
   */
  type NumberParser = string -> Option<real>

  /** The `ValueError`s the parser can raise. */
  datatype CornerError =
    | Unpack(got: nat)          // a token did not split into exactly three fields
    | NotANumber(text: string)  // `float` rejected a latitude or longitude field

  /** The space-separated tokens of the coordinate text, after stripping it. */
  function Points(text: string): seq<string> {
    Split(Strip(text), ' ')
  }

  /** The comma-separated fields of one (stripped) token. */
  function Fields(token: string): seq<string> {
    Split(Strip(token), ',')
  }

  /**
   * One token `lon,lat,elev` becomes `Corner(lat, lon)`. The three-way unpack
   * fails first; then the latitude field is converted before the longitude
   * field; the elevation field is never converted.
   */
  function ParseCorner(token: string, float: NumberParser): (r: Result<Corner, CornerError>)
    ensures r.Success? <==>
      |Fields(token)| == 3 && float(Fields(token)[1]).Some? && float(Fields(token)[0]).Some?
    ensures r.Success? ==>
      float(Fields(token)[1]) == Some(r.value.lat) && float(Fields(token)[0]) == Some(r.value.lon)
  {
    var fields := Fields(token);
    if |fields| != 3 then Failure(Unpack(|fields|))
    else match float(fields[1])
      case None => Failure(NotANumber(fields[1]))
      case Some(lat) =>
        match float(fields[0])
        case None => Failure(NotANumber(fields[0]))
        case Some(lon) => Success(Corner(lat, lon))
  }

  /**
   * The outcome of a loop that handles one item after another and stops at
   * the first exception: every value in order, or the first error.
   */
  function Collect<T, E>(outcomes: seq<Result<T, E>>): (r: Result<seq<T>, E>)
    ensures r.Success? ==> |r.value| == |outcomes|
  {
    if outcomes == [] then Success([])
    else match Collect(outcomes[..|outcomes| - 1])
      case Failure(e) => Failure(e)
      case Success(values) =>
        match outcomes[|outcomes| - 1]
        case Failure(e) => Failure(e)
        case Success(v) => Success(values + [v])
  }

  /** Once a prefix of the outcomes fails, the whole loop fails with that same error. */
  lemma {:induction false} FailureSticks<T, E>(outcomes: seq<Result<T, E>>, j: nat)
    requires j <= |outcomes|
    requires Collect(outcomes[..j]).Failure?
    ensures Collect(outcomes) == Collect(outcomes[..j])
    decreases |outcomes| - j
  {
    if j == |outcomes| {
      assert outcomes[..j] == outcomes;
    } else {
      assert outcomes[..j + 1][..j] == outcomes[..j];
      FailureSticks(outcomes, j + 1);
    }
  }

  /**
   * The loop completes exactly when every item succeeds, and then yields one
   * value per item, in item order.
   */
  lemma {:induction false} CollectSucceeds<T, E>(outcomes: seq<Result<T, E>>)
    ensures Collect(outcomes).Success? <==> forall i :: 0 <= i < |outcomes| ==> outcomes[i].Success?
    ensures Collect(outcomes).Success? ==>
      var values := Collect(outcomes).value;
      && |values| == |outcomes|
      && forall i :: 0 <= i < |outcomes| ==> outcomes[i] == Success(values[i])
  {
    if outcomes != [] {
      var n := |outcomes| - 1;
      var init := outcomes[..n];
      CollectSucceeds(init);
      if Collect(init).Failure? {
        var i :| 0 <= i < n && init[i].Failure?;
        assert outcomes[i] == init[i];
      } else if outcomes[n].Success? {
        var values := Collect(init).value + [outcomes[n].value];
        assert Collect(outcomes) == Success(values);
        forall i | 0 <= i < |outcomes|
          ensures outcomes[i] == Success(values[i])
        {
          if i < n {
            assert outcomes[i] == init[i];
          }
        }
      }
    }
  }

  /** When the loop fails, it reports the error of the first item that fails. */
  lemma {:induction false} CollectFirstError<T, E>(outcomes: seq<Result<T, E>>, j: nat)
    requires j < |outcomes|
    requires forall i :: 0 <= i < j ==> outcomes[i].Success?
    requires outcomes[j].Failure?
    ensures Collect(outcomes) == Failure(outcomes[j].error)
  {
    var prefix := outcomes[..j];
    CollectSucceeds(prefix);
    assert forall i :: 0 <= i < j ==> prefix[i] == outcomes[i];
    assert outcomes[..j + 1][..j] == prefix;
    FailureSticks(outcomes, j + 1);
  }

  /** The per-token outcomes of the parser, one per token. */
  function TokenOutcomes(tokens: seq<string>, float: NumberParser): seq<Result<Corner, CornerError>> {
    seq(|tokens|, i requires 0 <= i < |tokens| => ParseCorner(tokens[i], float))
  }

  /** What `extract_corners_from` returns or raises for the given coordinate text. */
  function ExtractCorners(text: string, float: NumberParser): (r: Result<seq<Corner>, CornerError>)
    ensures r.Success? ==> |r.value| == |Points(text)|
  {
    Collect(TokenOutcomes(Points(text), float))
  }

  /** `extract_corners_from`: the corner list is built by appending, one token at a time. */
  method ExtractCornersFrom(text: string, float: NumberParser) returns (r: Result<seq<Corner>, CornerError>)
    ensures r == ExtractCorners(text, float)
  {
    var points := Points(text);
    ghost var outcomes := TokenOutcomes(points, float);
    var corners: seq<Corner> := [];
    var i := 0;
    while i < |points|
      invariant 0 <= i <= |points| && |corners| == i
      invariant forall j :: 0 <= j < i ==> outcomes[j] == Success(corners[j])
    {
      var fields := Fields(points[i]);
      if |fields| != 3 {
        assert outcomes[i] == Failure(Unpack(|fields|));
        CollectFirstError(outcomes, i);
        return Failure(Unpack(|fields|));
      }
      var lat := float(fields[1]);
      if lat.None? {
        assert outcomes[i] == Failure(NotANumber(fields[1]));
        CollectFirstError(outcomes, i);
        return Failure(NotANumber(fields[1]));
      }
      var lon := float(fields[0]);
      if lon.None? {
        assert outcomes[i] == Failure(NotANumber(fields[0]));
        CollectFirstError(outcomes, i);
        return Failure(NotANumber(fields[0]));
      }
      assert outcomes[i] == Success(Corner(lat.value, lon.value));
      corners := corners + [Corner(lat.value, lon.value)];
      i := i + 1;
    }
    CollectSucceeds(outcomes);
    assert Collect(outcomes).value == corners;
    r := Success(corners);
  }

  /**
   * The parser succeeds exactly when every token converts, and then yields
   * one corner per token, in token order; otherwise it raises the error of
   * the first token that does not convert.
   */
  lemma ExtractCornersPerToken(text: string, float: NumberParser)
    ensures var tokens := Points(text); var r := ExtractCorners(text, float);
      && (r.Success? <==> forall i :: 0 <= i < |tokens| ==> ParseCorner(tokens[i], float).Success?)
      && (r.Success? ==>
           && |r.value| == |tokens|
           && forall i :: 0 <= i < |tokens| ==> ParseCorner(tokens[i], float) == Success(r.value[i]))
  {
    var tokens := Points(text);
    var outcomes := TokenOutcomes(tokens, float);
    assert |outcomes| == |tokens|;
    assert forall i :: 0 <= i < |tokens| ==> outcomes[i] == ParseCorner(tokens[i], float);
    CollectSucceeds(outcomes);
  }

  /** When the parser fails, it reports the error of the first token that fails. */
  lemma ExtractCornersFirstError(text: string, j: nat, float: NumberParser)
    requires j < |Points(text)|
    requires forall i :: 0 <= i < j ==> ParseCorner(Points(text)[i], float).Success?
    requires ParseCorner(Points(text)[j], float).Failure?
    ensures ExtractCorners(text, float) == Failure(ParseCorner(Points(text)[j], float).error)
  {
    CollectFirstError(TokenOutcomes(Points(text), float), j);
  }

  /**
   * A token whose stripped text does not hold exactly two commas is rejected
   * by the three-way unpack, whatever its fields contain.
   */
  lemma ParseCornerRejectsFieldCount(token: string, float: NumberParser)
    requires multiset(Strip(token))[','] != 2
    ensures ParseCorner(token, float) == Failure(Unpack(multiset(Strip(token))[','] + 1))
  {
    SplitCount(Strip(token), ',');
  }

  /** The three text fields of one coordinate token. */
  datatype CoordinateText = CoordinateText(lon: string, lat: string, elev: string)

  /** The token `lon,lat,elev`. */
  function Token(c: CoordinateText): string {
    Join([c.lon, c.lat, c.elev], ',')
  }

  /** Fields without whitespace and without commas, as a KML writer emits them. */
  predicate WellFormed(c: CoordinateText) {
    && NoSpace(c.lon) && ',' !in c.lon
    && NoSpace(c.lat) && ',' !in c.lat
    && NoSpace(c.elev) && ',' !in c.elev
  }

  /** A well-formed token is non-empty and holds no whitespace, in particular no space. */
  lemma TokenShape(c: CoordinateText)
    requires WellFormed(c)
    ensures Token(c) != [] && NoSpace(Token(c)) && ' ' !in Token(c)
  {
    var fields := [c.lon, c.lat, c.elev];
    JoinNoSpace(fields, ',');
    assert fields[1..] == [c.lat, c.elev] && fields[1..][1..] == [c.elev];
    assert Join(fields[1..], ',') == c.lat + [','] + c.elev;
    assert |Token(c)| == |c.lon| + |c.lat| + |c.elev| + 2;
    assert IsSpace(' ');
  }

  /**
   * A well-formed token becomes the corner `(lat, lon)` when both of those
   * fields convert: the fields are swapped and the elevation is discarded
   * without being converted.
   */
  lemma {:induction false} ParseToken(c: CoordinateText, float: NumberParser)
    requires WellFormed(c)
    requires float(c.lat).Some? && float(c.lon).Some?
    ensures ParseCorner(Token(c), float) == Success(Corner(float(c.lat).value, float(c.lon).value))
  {
    var fields := [c.lon, c.lat, c.elev];
    TokenShape(c);
    var t := Token(c);
    StripKeeps(t);
    SplitJoin(fields, ',');
  }

  /** The tokens of a list of coordinates. */
  function Tokens(cs: seq<CoordinateText>): seq<string> {
    seq(|cs|, i requires 0 <= i < |cs| => Token(cs[i]))
  }

  /** The coordinate text of a polygon: its tokens joined by single spaces. */
  function CoordinateLine(cs: seq<CoordinateText>): string
    requires |cs| >= 1
  {
    Join(Tokens(cs), ' ')
  }

  /** The parser finds exactly the tokens a coordinate line was made of. */
  lemma LinePoints(cs: seq<CoordinateText>)
    requires |cs| >= 1
    requires forall i :: 0 <= i < |cs| ==> WellFormed(cs[i])
    ensures Points(CoordinateLine(cs)) == Tokens(cs)
  {
    var tokens := Tokens(cs);
    forall i | 0 <= i < |cs|
      ensures tokens[i] != [] && NoSpace(tokens[i]) && ' ' !in tokens[i]
    {
      TokenShape(cs[i]);
    }
    var text := Join(tokens, ' ');
    JoinFirst(tokens, ' ');
    JoinLast(tokens, ' ');
    StripKeeps(text);
    SplitJoin(tokens, ' ');
  }

  /**
   * End to end: the text of well-formed tokens joined by single spaces yields
   * exactly one corner per token, in token order, each `(lat, lon)` of its token.
   */
  lemma {:induction false} ExtractWellFormed(cs: seq<CoordinateText>, float: NumberParser)
    requires |cs| >= 1
    requires forall i :: 0 <= i < |cs| ==> WellFormed(cs[i])
    requires forall i :: 0 <= i < |cs| ==> float(cs[i].lat).Some? && float(cs[i].lon).Some?
    ensures var r := ExtractCorners(CoordinateLine(cs), float);
      && r.Success?
      && |r.value| == |cs|
      && forall i :: 0 <= i < |cs| ==> r.value[i] == Corner(float(cs[i].lat).value, float(cs[i].lon).value)
  {
    LinePoints(cs);
    var outcomes := TokenOutcomes(Tokens(cs), float);
    forall i | 0 <= i < |cs|
      ensures outcomes[i] == Success(Corner(float(cs[i].lat).value, float(cs[i].lon).value))
    {
      ParseToken(cs[i], float);
    }
    CollectSucceeds(outcomes);
  }
}
