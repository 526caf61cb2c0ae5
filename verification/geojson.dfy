/** The shape of a country feature in the boundary file the globe draws:
    the properties the components read and a Polygon or MultiPolygon
    geometry of [longitude, latitude] positions. */
module GeoJson {
  import opened JsValues

  /** One position `[lng, lat]`; coordinates are exact reals here. */
  datatype Position = Position(lng: real, lat: real)

  type Ring = seq<Position>

  datatype Geometry =
    | Polygon(rings: seq<Ring>)                  // rings[0] is the outer ring
    | MultiPolygon(polygons: seq<seq<Ring>>)     // each part is a Polygon's rings
    | OtherGeometry(kind: string)                // any other `type`
    | NoGeometry                                 // `geometry` is null

  /** The feature properties that the modelled code reads; `None` is a
      missing or null property. */
  datatype Properties = Properties(
    lat: Option<real>,        // LAT
    long: Option<real>,       // LONG
    labelY: Option<real>,     // LABEL_Y
    labelX: Option<real>,     // LABEL_X
    isoA3: MaybeString,       // ISO_A3
    adm0A3: MaybeString,      // ADM0_A3
    isoA2: MaybeString,       // ISO_A2
    admin: MaybeString,       // ADMIN
    name: MaybeString         // NAME
  )

  /** A feature; `properties` is `None` when the feature carries none. */
  datatype Feature = Feature(properties: Option<Properties>, geometry: Geometry)

  /** Within the ranges of geographic coordinates. */
  predicate InRange(p: Position) {
    -90.0 <= p.lat <= 90.0 && -180.0 <= p.lng <= 180.0
  }
}
