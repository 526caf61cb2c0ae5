/** The globe component's helpers: the per-name colour, the camera target of
    a clicked country (centre and altitude), the click report and the cap
    colour and altitude of a polygon. */
module WorldMapComponent {
  import opened JsValues
  import opened JsStrings
  import opened JsNumbers
  import opened GeoJson

  // ---------------------------------------------------------------------
  // Colour per country name

  /** One step of `hash = charCode + ((hash << 5) - hash)`: the shift wraps the
      32-bit value of `hash`, the subtraction uses the full `hash`. */
  function HashStep(hash: int, unit: CodeUnit): int {
    unit + (ToInt32(ToInt32(hash) * 32) - hash)
  }

  /** The hash after the loop has consumed `units`, starting from 0. */
  function Hash(units: seq<CodeUnit>): int {
    if units == [] then 0 else HashStep(Hash(units[..|units| - 1]), units[|units| - 1])
  }

  /** How much one step can move the hash: a code unit plus a 32-bit value. */
  const HashGrowth: int := TwoTo31 + 0xFFFF

  /** The hash grows at most linearly, so it stays an exactly representable
      double (below 2^53) for every name shorter than four million code units;
      the exact-integer model is then the double arithmetic of the source. */
  lemma {:induction false} HashMagnitude(units: seq<CodeUnit>)
    ensures Abs(Hash(units)) <= |units| * HashGrowth
  {
    if units != [] {
      var init := units[..|units| - 1];
      HashMagnitude(init);
      var h := Hash(init);
      var shifted := ToInt32(ToInt32(h) * 32);
      assert Hash(units) == units[|units| - 1] + shifted - h;
      assert Abs(Hash(units)) <= Abs(h) + HashGrowth;
      assert |units| * HashGrowth == |init| * HashGrowth + HashGrowth;
    }
  }

  datatype CssColor =
    | Hsl(hue: nat, saturation: nat, lightness: nat)   // `hsl(h, s%, l%)`
    | Hex(code: string)                                  // `#rrggbb`

  /** The CSS text of a colour. */
  function CssText(c: CssColor): string {
    match c
    case Hsl(h, sat, light) =>
      "hsl(" + NumberToString(h) + ", " + NumberToString(sat) + "%, " + NumberToString(light) + "%)"
    case Hex(code) => code
  }

  /** The hue of a name: `Math.abs(hash % 60)` with JavaScript's truncating `%`. */
  function HueOf(name: string): (hue: nat)
    ensures hue < 60
    ensures hue == Abs(Hash(Utf16(name))) % 60
  {
    Abs(TruncRem(Hash(Utf16(name)), 60))
  }

  /** `getCountryColor(name)` as a value. */
  function CountryColor(name: string): (c: CssColor)
    ensures CssText(c) == "hsl(" + NumberToString(HueOf(name)) + ", 70%, 50%)"
  {
    Hsl(HueOf(name), 70, 50)
  }

  /** `getCountryColor`: the hash loop over the name's UTF-16 code units. */
  method GetCountryColor(name: string) returns (color: CssColor)
    ensures color == CountryColor(name)
    ensures color.Hsl? && color.hue < 60 && color.saturation == 70 && color.lightness == 50
    ensures color.hue == Abs(Hash(Utf16(name))) % 60
    ensures name == "" ==> color.hue == 0
  {
    var units := Utf16(name);
    var hash := 0;
    var i := 0;
    while i < |units|
      invariant 0 <= i <= |units|
      invariant hash == Hash(units[..i])
    {
      assert units[..i + 1][..i] == units[..i];
      hash := units[i] + (ToInt32(ToInt32(hash) * 32) - hash);
      i := i + 1;
    }
    assert units[..i] == units;
    var hue := Abs(TruncRem(hash, 60));
    color := Hsl(hue, 70, 50);
  }

  /** The empty name hashes to 0, and so has hue 0. */
  lemma EmptyNameHue()
    ensures Hash(Utf16("")) == 0 && HueOf("") == 0
  {
  }

  /** A worked value: "AB" hashes to 66 + (65 * 32 - 65) = 2081, hue 41. */
  lemma ColorOfAB()
    ensures CountryColor("AB") == Hsl(41, 70, 50)
  {
    Utf16OfBmp("AB");
    assert Utf16("AB") == [65, 66];
    assert [65, 66][..1] == [65];
    assert Hash([65]) == 65;
    assert Hash([65, 66]) == 2081;
  }

  // ---------------------------------------------------------------------
  // Running bounding box (`updateBounds`)

  datatype Bounds = Bounds(minLat: real, maxLat: real, minLng: real, maxLng: real)

  /** The starting values, chosen as the opposite extremes of the globe. */
  const Sentinel: Bounds := Bounds(90.0, -90.0, 180.0, -180.0)

  /** One vertex through the four independent `if`s of `updateBounds`. */
  function Include(b: Bounds, p: Position): Bounds {
    Bounds(
      if p.lat < b.minLat then p.lat else b.minLat,
      if p.lat > b.maxLat then p.lat else b.maxLat,
      if p.lng < b.minLng then p.lng else b.minLng,
      if p.lng > b.maxLng then p.lng else b.maxLng)
  }

  /** The bounds after `updateBounds` has visited `pts` in order. */
  function FoldBounds(b: Bounds, pts: seq<Position>): Bounds {
    if pts == [] then b else Include(FoldBounds(b, pts[..|pts| - 1]), pts[|pts| - 1])
  }

  /** `updateBounds(coords)`: the forEach over one ring. */
  method UpdateBounds(b: Bounds, coords: seq<Position>) returns (r: Bounds)
    ensures r == FoldBounds(b, coords)
  {
    r := b;
    var i := 0;
    while i < |coords|
      invariant 0 <= i <= |coords|
      invariant r == FoldBounds(b, coords[..i])
    {
      assert coords[..i + 1][..i] == coords[..i];
      var lng := coords[i].lng;
      var lat := coords[i].lat;
      var minLat, maxLat, minLng, maxLng := r.minLat, r.maxLat, r.minLng, r.maxLng;
      if lat < minLat { minLat := lat; }
      if lat > maxLat { maxLat := lat; }
      if lng < minLng { minLng := lng; }
      if lng > maxLng { maxLng := lng; }
      r := Bounds(minLat, maxLat, minLng, maxLng);
      i := i + 1;
    }
    assert coords[..i] == coords;
  }

  lemma {:induction false} FoldBoundsAppend(b: Bounds, xs: seq<Position>, ys: seq<Position>)
    ensures FoldBounds(b, xs + ys) == FoldBounds(FoldBounds(b, xs), ys)
  {
    if ys == [] {
      assert xs + ys == xs;
    } else {
      assert (xs + ys)[..|xs + ys| - 1] == xs + ys[..|ys| - 1];
      FoldBoundsAppend(b, xs, ys[..|ys| - 1]);
    }
  }

  /** Each running extreme is bounded by its start value and by every vertex
      seen, and is one of those values. */
  lemma {:induction false} FoldBoundsHull(b: Bounds, pts: seq<Position>)
    ensures var r := FoldBounds(b, pts);
      && r.minLat <= b.minLat && r.maxLat >= b.maxLat && r.minLng <= b.minLng && r.maxLng >= b.maxLng
      && (forall i :: 0 <= i < |pts| ==>
            r.minLat <= pts[i].lat && pts[i].lat <= r.maxLat && r.minLng <= pts[i].lng && pts[i].lng <= r.maxLng)
      && (r.minLat == b.minLat || exists i :: 0 <= i < |pts| && r.minLat == pts[i].lat)
      && (r.maxLat == b.maxLat || exists i :: 0 <= i < |pts| && r.maxLat == pts[i].lat)
      && (r.minLng == b.minLng || exists i :: 0 <= i < |pts| && r.minLng == pts[i].lng)
      && (r.maxLng == b.maxLng || exists i :: 0 <= i < |pts| && r.maxLng == pts[i].lng)
  {
    if pts != [] {
      var init := pts[..|pts| - 1];
      FoldBoundsHull(b, init);
      assert forall i :: 0 <= i < |init| ==> init[i] == pts[i];
    }
  }

  /** True extremes of a non-empty vertex list. */
  ghost predicate IsBoundingBox(r: Bounds, pts: seq<Position>) {
    && (forall i :: 0 <= i < |pts| ==>
          r.minLat <= pts[i].lat <= r.maxLat && r.minLng <= pts[i].lng <= r.maxLng)
    && (exists i :: 0 <= i < |pts| && r.minLat == pts[i].lat)
    && (exists i :: 0 <= i < |pts| && r.maxLat == pts[i].lat)
    && (exists i :: 0 <= i < |pts| && r.minLng == pts[i].lng)
    && (exists i :: 0 <= i < |pts| && r.maxLng == pts[i].lng)
  }

  /** From the sentinels, at least one vertex with every vertex on the globe
      gives exactly the bounding box of the vertices. */
  lemma SentinelFoldIsBoundingBox(pts: seq<Position>)
    requires |pts| > 0
    requires forall i :: 0 <= i < |pts| ==> InRange(pts[i])
    ensures IsBoundingBox(FoldBounds(Sentinel, pts), pts)
  {
    var r := FoldBounds(Sentinel, pts);
    FoldBoundsHull(Sentinel, pts);
    assert InRange(pts[0]);
    if r.minLat == 90.0 { assert r.minLat == pts[0].lat; }
    if r.maxLat == -90.0 { assert r.maxLat == pts[0].lat; }
    if r.minLng == 180.0 { assert r.minLng == pts[0].lng; }
    if r.maxLng == -180.0 { assert r.maxLng == pts[0].lng; }
  }

  // ---------------------------------------------------------------------
  // Which vertices are scanned

  /** The outer rings of the parts of a MultiPolygon, one after another. */
  function OuterRings(polygons: seq<seq<Ring>>): seq<Position>
    requires forall k :: 0 <= k < |polygons| ==> |polygons[k]| > 0
  {
    if polygons == [] then []
    else OuterRings(polygons[..|polygons| - 1]) + polygons[|polygons| - 1][0]
  }

  /** The vertices `updateBounds` visits, or the TypeError thrown when a ring
      it indexes (`coordinates[0]`, `polygon[0]`) or the geometry is missing.
      Only outer rings are scanned; holes are never read. */
  function ScannedVertices(g: Geometry): Result<seq<Position>, JsError> {
    match g
    case Polygon(rings) =>
      if |rings| == 0 then Err(TypeError("coordinates[0] is undefined")) else Ok(rings[0])
    case MultiPolygon(polygons) =>
      if exists k :: 0 <= k < |polygons| && |polygons[k]| == 0
      then Err(TypeError("polygon[0] is undefined"))
      else Ok(OuterRings(polygons))
    case OtherGeometry(_) => Ok([])
    case NoGeometry => Err(TypeError("geometry is null"))
  }

  /** The running bounds after the scan of `g`, as `getCountryCenter` and
      `getZoomAltitude` both compute them. */
  function BoundsOf(g: Geometry): Result<Bounds, JsError> {
    match ScannedVertices(g)
    case Ok(pts) => Ok(FoldBounds(Sentinel, pts))
    case Err(e) => Err(e)
  }

  /** The scan shared by `getCountryCenter` and `getZoomAltitude`. */
  method ScanBounds(g: Geometry) returns (r: Result<Bounds, JsError>)
    ensures r == BoundsOf(g)
  {
    match g
    case Polygon(rings) =>
      if |rings| == 0 {
        return Err(TypeError("coordinates[0] is undefined"));
      }
      var b := UpdateBounds(Sentinel, rings[0]);
      r := Ok(b);
    case MultiPolygon(polygons) =>
      var b := Sentinel;
      var k := 0;
      while k < |polygons|
        invariant 0 <= k <= |polygons|
        invariant forall j :: 0 <= j < k ==> |polygons[j]| > 0
        invariant b == FoldBounds(Sentinel, OuterRings(polygons[..k]))
      {
        if |polygons[k]| == 0 {
          return Err(TypeError("polygon[0] is undefined"));
        }
        assert polygons[..k + 1][..k] == polygons[..k];
        FoldBoundsAppend(Sentinel, OuterRings(polygons[..k]), polygons[k][0]);
        b := UpdateBounds(b, polygons[k][0]);
        k := k + 1;
      }
      assert polygons[..k] == polygons;
      r := Ok(b);
    case OtherGeometry(_) =>
      r := Ok(Sentinel);
    case NoGeometry =>
      r := Err(TypeError("geometry is null"));
  }

  // ---------------------------------------------------------------------
  // getCountryCenter

  datatype Center = Center(lat: real, lng: real)

  function Midpoint(b: Bounds): Center {
    Center((b.minLat + b.maxLat) / 2.0, (b.minLng + b.maxLng) / 2.0)
  }

  /** Both label coordinates of one convention are truthy. */
  predicate HasLatLong(p: Properties) { TruthyReal(p.lat) && TruthyReal(p.long) }
  predicate HasLabelPoint(p: Properties) { TruthyReal(p.labelY) && TruthyReal(p.labelX) }

  /** `getCountryCenter(country)` as a value. */
  function CenterOf(f: Feature): Result<Center, JsError> {
    match f.properties
    case None => Err(TypeError("properties is undefined"))
    case Some(p) =>
      if HasLatLong(p) then Ok(Center(p.lat.value, p.long.value))
      else if HasLabelPoint(p) then Ok(Center(p.labelY.value, p.labelX.value))
      else
        match BoundsOf(f.geometry)
        case Ok(b) => Ok(Midpoint(b))
        case Err(e) => Err(e)
  }

  /** `getCountryCenter`. */
  method GetCountryCenter(f: Feature) returns (r: Result<Center, JsError>)
    ensures r == CenterOf(f)
  {
    if f.properties.None? {
      return Err(TypeError("properties is undefined"));
    }
    var props := f.properties.value;
    if TruthyReal(props.lat) && TruthyReal(props.long) {
      return Ok(Center(props.lat.value, props.long.value));
    }
    if TruthyReal(props.labelY) && TruthyReal(props.labelX) {
      return Ok(Center(props.labelY.value, props.labelX.value));
    }
    var scanned := ScanBounds(f.geometry);
    match scanned
    case Err(e) => r := Err(e);
    case Ok(b) => r := Ok(Center((b.minLat + b.maxLat) / 2.0, (b.minLng + b.maxLng) / 2.0));
  }

  /** Truthy LAT and LONG win, verbatim, whatever the geometry. */
  lemma CenterPrefersLatLong(f: Feature, g: Geometry)
    requires f.properties.Some? && HasLatLong(f.properties.value)
    ensures CenterOf(f) == CenterOf(f.(geometry := g))
    ensures CenterOf(f) == Ok(Center(f.properties.value.lat.value, f.properties.value.long.value))
  {
  }

  /** Otherwise truthy LABEL_Y and LABEL_X win, whatever the geometry; a 0 is
      falsy and falls through to the next rule. */
  lemma CenterPrefersLabelPoint(f: Feature, g: Geometry)
    requires f.properties.Some? && !HasLatLong(f.properties.value) && HasLabelPoint(f.properties.value)
    ensures CenterOf(f) == CenterOf(f.(geometry := g))
    ensures CenterOf(f) == Ok(Center(f.properties.value.labelY.value, f.properties.value.labelX.value))
  {
  }

  /** Without label coordinates, a scan that visits no vertex (an empty outer
      ring, no parts, or an unrecognised geometry type) leaves the sentinels and
      yields (0, 0). */
  lemma CenterOfEmptyScan(f: Feature)
    requires f.properties.Some? && !HasLatLong(f.properties.value) && !HasLabelPoint(f.properties.value)
    requires ScannedVertices(f.geometry) == Ok([])
    ensures CenterOf(f) == Ok(Center(0.0, 0.0))
  {
  }

  /** Without label coordinates, the centre is the midpoint of the true
      bounding box of the scanned vertices when they lie on the globe. */
  lemma CenterIsBoxMidpoint(f: Feature)
    requires f.properties.Some? && !HasLatLong(f.properties.value) && !HasLabelPoint(f.properties.value)
    requires ScannedVertices(f.geometry).Ok?
    requires var pts := ScannedVertices(f.geometry).value;
      |pts| > 0 && forall i :: 0 <= i < |pts| ==> InRange(pts[i])
    ensures CenterOf(f).Ok?
    ensures var pts := ScannedVertices(f.geometry).value;
      exists b :: IsBoundingBox(b, pts) && CenterOf(f).value == Midpoint(b)
    ensures var pts := ScannedVertices(f.geometry).value;
      exists i, j :: 0 <= i < |pts| && 0 <= j < |pts| && pts[i].lat <= CenterOf(f).value.lat <= pts[j].lat
  {
    var pts := ScannedVertices(f.geometry).value;
    var b := FoldBounds(Sentinel, pts);
    SentinelFoldIsBoundingBox(pts);
    assert CenterOf(f).value == Midpoint(b);
    var i :| 0 <= i < |pts| && b.minLat == pts[i].lat;
    var j :| 0 <= j < |pts| && b.maxLat == pts[j].lat;
    assert b.minLat <= b.maxLat by { assert b.minLat <= pts[0].lat <= b.maxLat; }
    assert pts[i].lat <= CenterOf(f).value.lat <= pts[j].lat;
  }

  /** The centre is an error exactly when the properties are missing, or when
      no label point applies and the scan throws. */
  lemma CenterErrors(f: Feature)
    ensures CenterOf(f).Err? <==>
      (f.properties.None? ||
       (!HasLatLong(f.properties.value) && !HasLabelPoint(f.properties.value)
        && ScannedVertices(f.geometry).Err?))
  {
  }

  /** The square ring [[0,0],[0,10],[10,10],[10,0]] is centred at (5, 5). */
  lemma CenterOfSquare(p: Properties)
    requires !HasLatLong(p) && !HasLabelPoint(p)
    ensures CenterOf(Feature(Some(p), Polygon([[Position(0.0, 0.0), Position(0.0, 10.0),
                                                Position(10.0, 10.0), Position(10.0, 0.0)]])))
         == Ok(Center(5.0, 5.0))
  {
    var p0, p1, p2, p3 := Position(0.0, 0.0), Position(0.0, 10.0), Position(10.0, 10.0), Position(10.0, 0.0);
    var ring := [p0, p1, p2, p3];
    assert ring[..3] == [p0, p1, p2] && [p0, p1, p2][..2] == [p0, p1] && [p0, p1][..1] == [p0];
    assert FoldBounds(Sentinel, [p0]) == Bounds(0.0, 0.0, 0.0, 0.0);
    assert FoldBounds(Sentinel, [p0, p1]) == Bounds(0.0, 10.0, 0.0, 0.0);
    assert FoldBounds(Sentinel, [p0, p1, p2]) == Bounds(0.0, 10.0, 0.0, 10.0);
    assert FoldBounds(Sentinel, ring) == Bounds(0.0, 10.0, 0.0, 10.0);
  }

  // ---------------------------------------------------------------------
  // getZoomAltitude

  /** The fixed altitude `getZoomAltitude` returns. */
  const ZoomAltitude: real := 1.5

  /** `getZoomAltitude`: computes the spans of the scanned box, then returns
      the constant; it throws where the scan throws. */
  method GetZoomAltitude(f: Feature) returns (r: Result<real, JsError>)
    ensures r.Ok? <==> ScannedVertices(f.geometry).Ok?
    ensures r.Ok? ==> r.value == ZoomAltitude
  {
    var scanned := ScanBounds(f.geometry);
    if scanned.Err? {
      return Err(scanned.error);
    }
    var b := scanned.value;
    var latSpan := b.maxLat - b.minLat;
    var lngSpan := b.maxLng - b.minLng;
    var maxSpan := if latSpan >= lngSpan then latSpan else lngSpan;
    var altitude := 1.5;
    r := Ok(altitude);
  }

  // ---------------------------------------------------------------------
  // Click handler, cap colour, altitude

  /** What the click reports to the parent: the first truthy code and
      `ADMIN || NAME` (which may itself be missing). */
  datatype Pick = Pick(code: string, name: MaybeString)

  /** The report of `handleCountryClick`, `None` when the properties are falsy. */
  function ClickPick(f: Feature): (r: Option<Pick>)
    ensures r.None? <==> f.properties.None?
    ensures r.Some? ==> r.value.code != ""
    ensures r.Some? ==> r.value.name == OrString(f.properties.value.admin, f.properties.value.name)
    ensures r.Some? && TruthyString(f.properties.value.isoA3) ==> r.value.code == f.properties.value.isoA3.value
    ensures r.Some? && !TruthyString(f.properties.value.isoA3) && TruthyString(f.properties.value.adm0A3) ==>
              r.value.code == f.properties.value.adm0A3.value
    ensures r.Some? && !TruthyString(f.properties.value.isoA3) && !TruthyString(f.properties.value.adm0A3)
            && TruthyString(f.properties.value.isoA2) ==>
              r.value.code == f.properties.value.isoA2.value
    ensures r.Some? && !TruthyString(f.properties.value.isoA3) && !TruthyString(f.properties.value.adm0A3)
            && !TruthyString(f.properties.value.isoA2) ==>
              r.value.code == "UNKNOWN"
  {
    match f.properties
    case None => None
    case Some(p) =>
      var code := OrDefault(OrString(OrString(p.isoA3, p.adm0A3), p.isoA2), "UNKNOWN");
      Some(Pick(code, OrString(p.admin, p.name)))
  }

  /** Where the camera is sent: the centre at the zoom altitude. */
  datatype PointOfView = PointOfView(lat: real, lng: real, altitude: real)

  datatype ClickOutcome =
    | Ignored                                                   // falsy properties
    | Clicked(pick: Pick, camera: Result<PointOfView, JsError>)  // parent notified first

  /** `handleCountryClick`: notify the parent with the pick, then compute the
      camera target; a throw in the centre or altitude comes after the notice. */
  method HandleCountryClick(f: Feature) returns (outcome: ClickOutcome)
    ensures outcome.Ignored? <==> f.properties.None?
    ensures outcome.Clicked? ==> Some(outcome.pick) == ClickPick(f)
    ensures outcome.Clicked? ==>
      (outcome.camera.Ok? <==> CenterOf(f).Ok? && ScannedVertices(f.geometry).Ok?)
    ensures outcome.Clicked? && outcome.camera.Ok? ==>
      outcome.camera.value == PointOfView(CenterOf(f).value.lat, CenterOf(f).value.lng, ZoomAltitude)
  {
    var pick := ClickPick(f);
    if pick.None? {
      return Ignored;
    }
    var center := GetCountryCenter(f);
    if center.Err? {
      return Clicked(pick.value, Err(center.error));
    }
    var altitude := GetZoomAltitude(f);
    if altitude.Err? {
      return Clicked(pick.value, Err(altitude.error));
    }
    outcome := Clicked(pick.value, Ok(PointOfView(center.value.lat, center.value.lng, altitude.value)));
  }

  /** The colour of the hovered polygon. */
  const HoverColor: string := "#fbbf24"

  /** `getPolygonColor` for the feature at `index` while the feature at
      `hovered` (if any) is under the pointer; the base colour is computed
      first, so a feature without properties throws even when hovered. */
  function PolygonCapColor(f: Feature, index: nat, hovered: Option<nat>): (r: Result<CssColor, JsError>)
    ensures r.Err? <==> f.properties.None?
    ensures r.Ok? && hovered == Some(index) ==> r.value == Hex(HoverColor)
    ensures r.Ok? && hovered != Some(index) ==>
      r.value == CountryColor(OrDefault(f.properties.value.admin, "Unknown"))
      && r.value.hue < 60
  {
    match f.properties
    case None => Err(TypeError("properties is undefined"))
    case Some(p) =>
      var baseColor := CountryColor(OrDefault(p.admin, "Unknown"));
      if hovered == Some(index) then Ok(Hex(HoverColor)) else Ok(baseColor)
  }

  /** The hovered polygon is raised to 0.12, all others sit at 0.06. */
  function PolygonAltitude(index: nat, hovered: Option<nat>): (r: real)
    ensures r == 0.12 <==> hovered == Some(index)
    ensures r == 0.12 || r == 0.06
  {
    if hovered == Some(index) then 0.12 else 0.06
  }
}
