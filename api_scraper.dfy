/** `APIGeoScraper`: the same Feature record built from the place's JSON
    description fetched from the data API. Every field is one key lookup
    with a default, so the record is always produced. */
module ApiGeoScraper {
  import opened Results
  import opened JsonValue
  import opened PyText
  import opened GeoJson

  /** `url.split('/')[3]`: the fourth '/'-separated segment, for
      "http://wikimapia.org/<id>/..." the place id; a URL with fewer segments
      raises an index error. */
  function PlaceId(url: string): (r: Option<string>)
    ensures r.Some? <==> Occurrences(url, '/') >= 3
    ensures r.Some? ==> '/' !in r.value
  {
    JoinSplitOn(url, '/');
    var segments := SplitOn(url, '/');
    if |segments| < 4 then None else Some(segments[3])
  }

  /** The id is exactly the fourth segment of any URL assembled from segments. */
  lemma PlaceIdOfSegments(segments: seq<string>)
    requires |segments| >= 4
    requires forall i :: 0 <= i < |segments| ==> '/' !in segments[i]
    ensures PlaceId(JoinOn(segments, '/')) == Some(segments[3])
  {
    SplitJoinOn(segments, '/');
  }

  const RequestPrefix := "http://api.wikimapia.org/?key=example&function=place.getbyid&id="
  const RequestSuffix := "&format=json&pack=&language=en&data_blocks=main%2Cgeometry%2Ccomments%2Clocation%2Cnearest_places%2Cnearest_comments%2Cattached%2C"

  /** The data-API request for one place: its id between a fixed prefix and a
      fixed suffix asking for the main, geometry, comments, location,
      nearest-places, nearest-comments and attached blocks. */
  function RequestUrl(id: string): (r: string)
    ensures |r| == |RequestPrefix| + |id| + |RequestSuffix|
    ensures r[..|RequestPrefix|] == RequestPrefix
    ensures r[|RequestPrefix|..|RequestPrefix| + |id|] == id
    ensures r[|RequestPrefix| + |id|..] == RequestSuffix
  {
    RequestPrefix + id + RequestSuffix
  }

  /** The keys the scraper reads; any other key of the response is ignored. */
  const ReadKeys: set<string> := {"polygon", "title", "location", "description", "nearestPlaces"}

  /** A scraper holds the place id and the parsed API response. */
  class APIGeoScraper {
    const id: string
    const json: Json

    constructor FromResponse(placeId: string, body: Json)
      ensures id == placeId && json == body
    {
      id := placeId;
      json := body;
    }

    /** `__init__`: take the id from the URL, then fetch the place; a URL without
        an id segment or a status other than 200 raises. */
    static method Open(url: string, get: string -> Response<Json>) returns (r: Result<APIGeoScraper>)
      ensures PlaceId(url).None? ==> r == Failure(BadPlaceUrl(url))
      ensures PlaceId(url).Some? ==>
                var res := get(RequestUrl(PlaceId(url).value));
                && (r.Success? <==> res.status == 200)
                && (r.Failure? ==> r.error == FetchFailed(url))
                && (r.Success? ==> fresh(r.value) && r.value.id == PlaceId(url).value && r.value.json == res.body)
    {
      var placeId := PlaceId(url);
      if placeId.None? {
        return Failure(BadPlaceUrl(url));
      }
      var res := get(RequestUrl(placeId.value));
      if res.status != 200 {
        return Failure(FetchFailed(url));
      }
      var scraper := new APIGeoScraper.FromResponse(placeId.value, res.body);
      return Success(scraper);
    }

    /** `get_geometry`: a polygon whose coordinates are `json['polygon']`, or `[]`. */
    function GetGeometry(): (r: Json)
      ensures IsGeometry(r, "polygon")
      ensures Get(json, "polygon").Some? ==> r.fields["coordinates"] == Get(json, "polygon").value
      ensures Get(json, "polygon").None? ==> r.fields["coordinates"] == Arr([])
    {
      GeometryRecord("polygon", GetOr(json, "polygon", Arr([])))
    }

    /** `get_title`: `json['title']` unchanged, not wrapped in an object; null when absent. */
    function GetTitle(): (r: Json)
      ensures Get(json, "title").Some? ==> r == Get(json, "title").value
      ensures Get(json, "title").None? ==> r == Null
    {
      GetOr(json, "title", Null)
    }

    /** `get_location`: `json['location']` unchanged; null when absent. */
    function GetLocation(): (r: Json)
      ensures Get(json, "location").Some? ==> r == Get(json, "location").value
      ensures Get(json, "location").None? ==> r == Null
    {
      GetOr(json, "location", Null)
    }

    /** `get_description`: `json['description']` unchanged, not wrapped; null when absent. */
    function GetDescription(): (r: Json)
      ensures Get(json, "description").Some? ==> r == Get(json, "description").value
      ensures Get(json, "description").None? ==> r == Null
    {
      GetOr(json, "description", Null)
    }

    /** `get_nearby_places`: `json['nearestPlaces']` unchanged; null when absent. */
    function GetNearbyPlaces(): (r: Json)
      ensures Get(json, "nearestPlaces").Some? ==> r == Get(json, "nearestPlaces").value
      ensures Get(json, "nearestPlaces").None? ==> r == Null
    {
      GetOr(json, "nearestPlaces", Null)
    }

    /** `get_properties`: the four lookups under their fixed keys. */
    function GetProperties(): (r: Json)
      ensures IsProperties(r)
      ensures r.fields["title"] == GetTitle() && r.fields["location"] == GetLocation()
      ensures r.fields["description"] == GetDescription() && r.fields["nearestPlaces"] == GetNearbyPlaces()
    {
      PropertiesRecord(GetTitle(), GetLocation(), GetDescription(), GetNearbyPlaces())
    }

    /** `parse_point_to_geoJSON`: a polygon Feature with all three top-level keys
        and all four property keys, whatever the response lacks. */
    function ParsePointToGeoJson(): (r: Json)
      ensures IsFeature(r, "polygon")
      ensures r.fields["geometry"] == GetGeometry() && r.fields["properties"] == GetProperties()
    {
      FeatureRecord(GetGeometry(), GetProperties())
    }
  }

  /** Only the five keys in ReadKeys are read: two responses that agree on them
      give the same Feature, whatever else they hold. */
  lemma OnlyReadKeysMatter(a: APIGeoScraper, b: APIGeoScraper)
    requires forall k :: k in ReadKeys ==> Get(a.json, k) == Get(b.json, k)
    ensures a.ParsePointToGeoJson() == b.ParsePointToGeoJson()
  {
  }

  /** A response that is not a JSON object (a list, a string, null) has no keys:
      every lookup falls back, as Python's bare `except` swallows the TypeError. */
  lemma NonObjectResponse(s: APIGeoScraper)
    requires !s.json.Obj?
    ensures s.ParsePointToGeoJson() ==
            FeatureRecord(GeometryRecord("polygon", Arr([])), PropertiesRecord(Null, Null, Null, Null))
  {
  }

  /** A response holding only a title: the title comes through as the raw value,
      location, description and nearest places are null, the coordinates empty. */
  lemma TitleOnlyResponse(s: APIGeoScraper)
    requires s.json == Obj(map["title" := Str("Park X")])
    ensures var props := s.ParsePointToGeoJson().fields["properties"];
            && props.fields["title"] == Str("Park X")
            && props.fields["location"] == Null
            && props.fields["description"] == Null
            && props.fields["nearestPlaces"] == Null
            && s.ParsePointToGeoJson().fields["geometry"].fields["coordinates"] == Arr([])
  {
  }
}
