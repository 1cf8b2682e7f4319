/** `HTMLGeoScraper`: turn the main content of one point-of-interest page into a
    Feature whose geometry is a Point. The page is given as the fragments the
    HTML parser locates in the `page-content` container. */
module HtmlGeoScraper {
  import opened Results
  import opened JsonValue
  import opened PyText
  import opened GeoJson

  /** One `<li>` of the nearby-places list: the text of its first `<a>` and of its
      first `<span>`, each absent when the item has no such element. */
  datatype ListItem = ListItem(name: Option<string>, distance: Option<string>)

  /** The parsed `page-content` container.
      - coordinates: the text right after the `<b>` label matching "Coordinates",
        absent when there is no such label or what follows it is not text;
      - heading: the text of the first `<h1>`;
      - address: the text of the first `<address>`;
      - description: the text of `div#place-description`;
      - nearby: the items of `div#nearby-places`, in document order. */
  datatype Page = Page(
    coordinates: Option<string>,
    heading: Option<string>,
    address: Option<string>,
    description: Option<string>,
    nearby: Option<seq<ListItem>>)

  /** `get_geometry`: a Point whose coordinates are the whitespace-separated tokens
      after the "Coordinates" label; any failure to find them gives `[]`. */
  function Geometry(page: Page): (r: Json)
    ensures IsGeometry(r, "Point")
    ensures var coordinates := r.fields["coordinates"];
            && coordinates.Arr?
            && (page.coordinates.None? ==> coordinates.items == [])
            && (forall i :: 0 <= i < |coordinates.items| ==>
                  coordinates.items[i].Str? && IsToken(coordinates.items[i].s))
            && (page.coordinates.Some? ==> coordinates == Strs(SplitWhitespace(page.coordinates.value)))
  {
    var coordinates := match page.coordinates
      case Some(text) => SplitWhitespace(text)
      case None => [];
    GeometryRecord("Point", Strs(coordinates))
  }

  /** `get_title`: always the one-key object `{title: v}`, `v` null without an `<h1>`. */
  function Title(page: Page): (r: Json)
    ensures r.Obj? && r.fields.Keys == {"title"}
    ensures page.heading.None? <==> r.fields["title"] == Null
    ensures page.heading.Some? ==> r.fields["title"] == Str(page.heading.value)
  {
    Obj(map["title" := StrOrNull(page.heading)])
  }

  /** The address has the tokens `get_location` reads: positions 0, 2 and 4. */
  predicate HasFullAddress(page: Page) {
    page.address.Some? && |SplitWhitespace(page.address.value)| >= 5
  }

  /** `get_location`: tokens 0, 2 and 4 of the whitespace-split address as
      country, state and place; a missing `<address>` or a shorter address fails. */
  function Location(page: Page): (r: Result<Json>)
    ensures r.Success? <==> HasFullAddress(page)
    ensures page.address.None? ==> r == Failure(NoAddress)
    ensures page.address.Some? && !HasFullAddress(page) ==>
              r == Failure(AddressTooShort(|SplitWhitespace(page.address.value)|))
    ensures r.Success? ==>
              var t := SplitWhitespace(page.address.value);
              && r.value.Obj? && r.value.fields.Keys == {"country", "state", "place"}
              && r.value.fields["country"] == Str(t[0])
              && r.value.fields["state"] == Str(t[2])
              && r.value.fields["place"] == Str(t[4])
  {
    match page.address
    case None => Failure(NoAddress)
    case Some(text) =>
      var t := SplitWhitespace(text);
      if |t| < 5 then Failure(AddressTooShort(|t|))
      else Success(Obj(map["country" := Str(t[0]), "state" := Str(t[2]), "place" := Str(t[4])]))
  }

  /** The location dictionary, filled key by key as the source does. */
  method GetLocation(page: Page) returns (r: Result<Json>)
    ensures r == Location(page)
  {
    if page.address.None? {
      return Failure(NoAddress);
    }
    var address := SplitWhitespace(page.address.value);
    if |address| < 5 {
      return Failure(AddressTooShort(|address|));
    }
    var location: map<string, Json> := map[];
    location := location["country" := Str(address[0])];
    location := location["state" := Str(address[2])];
    location := location["place" := Str(address[4])];
    return Success(Obj(location));
  }

  /** `get_description`: always the one-key object `{description: v}`, `v` null
      without the description container, else its text with the whitespace
      padding stripped. */
  function Description(page: Page): (r: Json)
    ensures r.Obj? && r.fields.Keys == {"description"}
    ensures page.description.None? <==> r.fields["description"] == Null
    ensures page.description.Some? ==>
              && r.fields["description"] == Str(Strip(page.description.value))
              && Unpadded(r.fields["description"].s)
  {
    Obj(map["description" := match page.description
                              case Some(text) => Str(Strip(text))
                              case None => Null])
  }

  /** The description dictionary, filled as the source does. */
  method GetDescription(page: Page) returns (r: Json)
    ensures r == Description(page)
  {
    var descriptionDict: map<string, Json> := map[];
    if page.description.Some? {
      descriptionDict := descriptionDict["description" := Str(Strip(page.description.value))];
    } else {
      descriptionDict := descriptionDict["description" := Null];
    }
    return Obj(descriptionDict);
  }

  /** The item has both the link the name comes from and the distance label. */
  predicate Complete(item: ListItem) {
    item.name.Some? && item.distance.Some?
  }

  function PlaceEntry(item: ListItem): Json
    requires Complete(item)
  {
    Obj(map["name" := Str(item.name.value), "distance" := Str(item.distance.value)])
  }

  /** One `{name, distance}` entry per item, in order; an incomplete item fails. */
  function PlaceEntries(items: seq<ListItem>): (r: Result<seq<Json>>)
    ensures r.Success? <==> forall i :: 0 <= i < |items| ==> Complete(items[i])
    ensures r.Failure? ==> r.error == NearbyItemIncomplete
    ensures r.Success? ==>
              && |r.value| == |items|
              && forall i :: 0 <= i < |items| ==> r.value[i] == PlaceEntry(items[i])
  {
    if items == [] then Success([])
    else if !Complete(items[0]) then Failure(NearbyItemIncomplete)
    else
      var rest :- PlaceEntries(items[1..]);
      Success([PlaceEntry(items[0])] + rest)
  }

  /** `get_nearby_places`: the entries of the nearby-places list; a page without
      the container fails instead of giving an empty list. */
  function NearbyPlaces(page: Page): (r: Result<Json>)
    ensures page.nearby.None? ==> r == Failure(NoNearbyPlaces)
    ensures page.nearby.Some? && r.Failure? ==> r.error == NearbyItemIncomplete
    ensures r.Success? <==> page.nearby.Some? && forall i :: 0 <= i < |page.nearby.value| ==> Complete(page.nearby.value[i])
    ensures r.Success? ==>
              && r.value.Arr?
              && |r.value.items| == |page.nearby.value|
              && forall i :: 0 <= i < |r.value.items| ==> r.value.items[i] == PlaceEntry(page.nearby.value[i])
  {
    match page.nearby
    case None => Failure(NoNearbyPlaces)
    case Some(items) =>
      var entries :- PlaceEntries(items);
      Success(Arr(entries))
  }

  /** The nearby-places list, built by appending one entry per item. */
  method GetNearbyPlaces(page: Page) returns (r: Result<Json>)
    ensures r == NearbyPlaces(page)
  {
    if page.nearby.None? {
      return Failure(NoNearbyPlaces);
    }
    var items := page.nearby.value;
    var nearbyPlacesList: seq<Json> := [];
    var i := 0;
    while i < |items|
      invariant 0 <= i <= |items|
      invariant forall k :: 0 <= k < i ==> Complete(items[k])
      invariant |nearbyPlacesList| == i
      invariant forall k :: 0 <= k < i ==> nearbyPlacesList[k] == PlaceEntry(items[k])
    {
      if !Complete(items[i]) {
        return Failure(NearbyItemIncomplete);
      }
      nearbyPlacesList := nearbyPlacesList + [PlaceEntry(items[i])];
      i := i + 1;
    }
    assert nearbyPlacesList == PlaceEntries(items).value;
    return Success(Arr(nearbyPlacesList));
  }

  /** `get_properties`: title, location, description and nearby places, in that
      order, so a location failure is reported before a nearby-places one. */
  function Properties(page: Page): (r: Result<Json>)
    ensures r.Success? <==> Location(page).Success? && NearbyPlaces(page).Success?
    ensures Location(page).Failure? ==> r == Failure(Location(page).error)
    ensures Location(page).Success? && NearbyPlaces(page).Failure? ==> r == Failure(NearbyPlaces(page).error)
    ensures r.Success? ==>
              && IsProperties(r.value)
              && r.value.fields["title"] == Title(page)
              && r.value.fields["location"] == Location(page).value
              && r.value.fields["description"] == Description(page)
              && r.value.fields["nearestPlaces"] == NearbyPlaces(page).value
  {
    var location :- Location(page);
    var nearbyPlaces :- NearbyPlaces(page);
    Success(PropertiesRecord(Title(page), location, Description(page), nearbyPlaces))
  }

  method GetProperties(page: Page) returns (r: Result<Json>)
    ensures r == Properties(page)
  {
    var title := Title(page);
    var location :- GetLocation(page);
    var description := GetDescription(page);
    var nearbyPlaces :- GetNearbyPlaces(page);
    return Success(PropertiesRecord(title, location, description, nearbyPlaces));
  }

  /** `parse_point_to_geoJSON`: a Point Feature with all three top-level keys and
      all four property keys, whatever optional fragment is missing; only a
      missing or short address, or a missing or malformed nearby-places list,
      prevents the record. */
  function Feature(page: Page): (r: Result<Json>)
    ensures r.Success? <==> HasFullAddress(page) && NearbyPlaces(page).Success?
    ensures r.Failure? ==> r == Failure(Properties(page).error)
    ensures r.Success? ==>
              && IsFeature(r.value, "Point")
              && r.value.fields["geometry"] == Geometry(page)
              && r.value.fields["properties"] == Properties(page).value
  {
    var properties :- Properties(page);
    Success(FeatureRecord(Geometry(page), properties))
  }

  /** A scraper holds the page fetched when it was created. */
  class HTMLGeoScraper {
    const html: Page

    constructor FromPage(page: Page)
      ensures html == page
    {
      html := page;
    }

    /** `__init__`: fetch the URL; a status other than 200 raises, naming the URL. */
    static method Open(url: string, get: string -> Response<Page>) returns (r: Result<HTMLGeoScraper>)
      ensures r.Success? <==> get(url).status == 200
      ensures r.Failure? ==> r.error == FetchFailed(url)
      ensures r.Success? ==> fresh(r.value) && r.value.html == get(url).body
    {
      var res := get(url);
      if res.status != 200 {
        return Failure(FetchFailed(url));
      }
      var scraper := new HTMLGeoScraper.FromPage(res.body);
      return Success(scraper);
    }

    method ParsePointToGeoJson() returns (r: Result<Json>)
      ensures r == Feature(html)
    {
      var geometry := Geometry(html);
      var properties :- GetProperties(html);
      return Success(FeatureRecord(geometry, properties));
    }
  }

  /** Whatever words the address holds, only tokens 0, 2 and 4 are kept. */
  lemma LocationOfTokens(page: Page, t: seq<string>)
    requires forall i :: 0 <= i < |t| ==> IsToken(t[i])
    requires |t| >= 5 && page.address == Some(JoinSpace(t))
    ensures Location(page) == Success(Obj(map["country" := Str(t[0]), "state" := Str(t[2]), "place" := Str(t[4])]))
  {
    SplitJoinSpace(t);
  }

  /** The address layout "Country , State , Place" is read by token position, so
      a multi-word state or place is cut to one word: the address
      "Israel , Tel Aviv District , Tel Aviv" gives state "Tel" and place "District". */
  lemma MultiWordAddress(page: Page, tokens: seq<string>)
    requires tokens == ["Israel", ",", "Tel", "Aviv", "District", ",", "Tel", "Aviv"]
    requires page.address == Some(JoinSpace(tokens))
    ensures var r := Location(page);
            && r.Success?
            && r.value.fields["country"] == Str("Israel")
            && r.value.fields["state"] == Str("Tel")
            && r.value.fields["place"] == Str("District")
  {
    assert IsToken("Israel") && IsToken(",") && IsToken("Tel");
    assert IsToken("Aviv") && IsToken("District");
    LocationOfTokens(page, tokens);
  }

  /** The tokens of the scenario above are those of "Israel , Tel Aviv District , Tel Aviv". */
  lemma MultiWordAddressText(address: string)
    requires address == "Israel , Tel Aviv District , Tel Aviv"
    ensures address == JoinSpace(["Israel", ",", "Tel", "Aviv", "District", ",", "Tel", "Aviv"])
  {
    var tokens := ["Israel", ",", "Tel", "Aviv", "District", ",", "Tel", "Aviv"];
    assert JoinSpace(tokens) == address;
  }

  /** The scenario on the address text itself: "Israel , Tel Aviv District , Tel Aviv"
      gives country "Israel", state "Tel" and place "District". */
  lemma MultiWordAddressScenario(page: Page)
    requires page.address == Some("Israel , Tel Aviv District , Tel Aviv")
    ensures var r := Location(page);
            && r.Success?
            && r.value.fields["country"] == Str("Israel")
            && r.value.fields["state"] == Str("Tel")
            && r.value.fields["place"] == Str("District")
  {
    MultiWordAddressText(page.address.value);
    MultiWordAddress(page, ["Israel", ",", "Tel", "Aviv", "District", ",", "Tel", "Aviv"]);
  }
}
