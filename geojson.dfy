/** The GeoJSON-shaped Feature record both scrapers return:
    `{type: "Feature", geometry: {type, coordinates}, properties: {title,
    location, description, nearestPlaces}}`. */
module GeoJson {
  import opened JsonValue

  function GeometryRecord(kind: string, coordinates: Json): Json {
    Obj(map["type" := Str(kind), "coordinates" := coordinates])
  }

  function PropertiesRecord(title: Json, location: Json, description: Json, nearestPlaces: Json): Json {
    Obj(map["title" := title, "location" := location, "description" := description,
             "nearestPlaces" := nearestPlaces])
  }

  function FeatureRecord(geometry: Json, properties: Json): Json {
    Obj(map["type" := Str("Feature"), "geometry" := geometry, "properties" := properties])
  }

  /** A geometry object of the given kind: exactly the keys `type` and `coordinates`. */
  predicate IsGeometry(j: Json, kind: string) {
    && j.Obj?
    && j.fields.Keys == {"type", "coordinates"}
    && j.fields["type"] == Str(kind)
  }

  /** A properties object: exactly the four keys, whatever their values. */
  predicate IsProperties(j: Json) {
    && j.Obj?
    && j.fields.Keys == {"title", "location", "description", "nearestPlaces"}
  }

  /** A Feature whose geometry is of the given kind: exactly the three top-level keys. */
  predicate IsFeature(j: Json, kind: string) {
    && j.Obj?
    && j.fields.Keys == {"type", "geometry", "properties"}
    && j.fields["type"] == Str("Feature")
    && IsGeometry(j.fields["geometry"], kind)
    && IsProperties(j.fields["properties"])
  }
}
