# Wikimapia point-of-interest scraper, modelled in Dafny

This project models the extraction core of the wikimapia scraper
(`source_code/utilities/scraping.py`). The core has three parts:

- **The link collector** (`get_wikimapia_links_from_html`). It fetches one listing page. It keeps the `href` of every
  anchor in the page's `span3` containers that has an `href` and no `data-url` marker.
- **`HTMLGeoScraper`**. It turns a point-of-interest page into a GeoJSON-shaped Feature with a `Point`
  geometry. Its properties are the title, the location read from the address, the description and the
  nearby places.
- **`APIGeoScraper`**. It builds the same three-key record from the place's JSON in the data API. Every field
  is a key lookup with a default. The geometry is a `polygon`.

Modules, one per file:

| file | module | what it holds |
|---|---|---|
| results.dfy | `Results` | `Option`, `Result`, the scrape errors, a fetched `Response` |
| json.dfy | `JsonValue` | JSON values and Python's `j[k]` lookup with and without a default |
| pytext.dfy | `PyText` | Python's `str.split()`, `str.strip()`, `str.split(sep)` and `''.join`, with their laws |
| geojson.dfy | `GeoJson` | the Feature / geometry / properties record and its shape predicates |
| links.dfy | `LinkCollector` | the link filter and the listing fetch |
| html_scraper.dfy | `HtmlGeoScraper` | the parsed page, the getters (functions, with methods where the source builds step by step), the scraper class |
| api_scraper.dfy | `ApiGeoScraper` | the place-id extraction, the request URL, the scraper class and its getters |

Exceptions that the source raises or lets escape are `Failure` results. The source raises plain
`Exception`, `AttributeError` or `IndexError`; the model gives each cause its own `ScrapeError` case. The fetch is a parameter
`get` from a URL to what the transport returns: a `Listing` (status, text and anchors) for the link
collector, a `Response` (status and parsed body) for the two scrapers. The HTML variant's field getters
are static methods in the source, and `get_properties` is an instance method that only passes the parsed page
on. Here all of them are functions of the parsed `Page`. The getters that the source builds step by step are also methods:
`get_location` and `get_description` fill a dictionary, and `get_nearby_places` appends in a loop.
Each method is proved equal to its function. The scraper classes hold the state their `__init__` sets
(`html`, or `id` and `json`) as constant fields.

The model follows the code where its behaviour is easy to misread:

- The address "Israel , Tel Aviv District , Tel Aviv" gives state `Tel` and place `District`, not
  `Tel Aviv District`. The code reads tokens 0, 2 and 4 of the whitespace split and does not rejoin
  words (`MultiWordAddressScenario`).
- The API variant returns `title` and `description` as raw values. Only the HTML variant wraps them
  in `{title: ...}` and `{description: ...}`.
- The link collector returns a list in document order, duplicates included, not a set. It also returns
  no list when a page with status 200 is empty, because `if not page_html` rejects `''`.
- The HTML getters keep the source's mixed failure policy. The geometry, title and description fall
  back to a default. The location and the nearby places fail.

## Model

| member | source | states |
|---|---|---|
| `LinkCollector.GetWikimapiaLinks` | source_code/utilities/scraping.py:14-42 | the URL fetched is the concatenation of the parts; no list exactly when the status is not 200 or the page text is empty; otherwise the filtered links of the page's anchors |
| `LinkCollector.DetailLinks` | source_code/utilities/scraping.py:42 | never more links than anchors; a single anchor gives its `href` exactly when it has an `href` and no `data-url`, else nothing (with DetailLinksAppend this fixes the filter on every anchor list) |
| `LinkCollector.DetailLinksAppend` | source_code/utilities/scraping.py:42 | the filter distributes over concatenation of anchor lists, so the links keep document order |
| `LinkCollector.DetailLinksMembers` | source_code/utilities/scraping.py:42 | a string is among the links exactly when some anchor with that `href` has an `href` and no `data-url` |
| `LinkCollector.DetailLinksCount` | source_code/utilities/scraping.py:42 | with N anchors carrying `href`, K of them also `data-url`, exactly N - K links are returned |
| `PyText.SplitWhitespace` | source_code/utilities/scraping.py:133-134 | every token of `str.split()` is non-empty and free of whitespace |
| `PyText.SplitWord` | source_code/utilities/scraping.py:175 | a whitespace-free string splits into itself, the empty string into no tokens |
| `PyText.SplitAtSpace` | source_code/utilities/scraping.py:175 | any whitespace character separates: `split(a + c + b) == split(a) + split(b)` (with SplitWord this fixes `split()` on all strings) |
| `PyText.SplitJoinSpace` | source_code/utilities/scraping.py:175 | splitting a single-space join of tokens gives the tokens back |
| `PyText.Strip` | source_code/utilities/scraping.py:193 | `strip()` leaves no whitespace at either end |
| `PyText.StripPadding` | source_code/utilities/scraping.py:193 | `strip()` of whitespace + unpadded core + whitespace is exactly the core |
| `PyText.SplitOn` | source_code/utilities/scraping.py:230 | `s.split(c)` has at least one piece and no piece contains `c` |
| `PyText.JoinSplitOn` | source_code/utilities/scraping.py:230 | joining the pieces of `s.split(c)` with `c` gives `s`; there is one piece more than occurrences of `c` |
| `PyText.SplitOnPiece` | source_code/utilities/scraping.py:230 | a piece without the separator, followed by the separator, becomes exactly one element of the split |
| `PyText.SplitJoinOn` | source_code/utilities/scraping.py:230 | splitting a join of separator-free pieces gives the pieces back |
| `PyText.Concat` | source_code/utilities/scraping.py:33 | `''.join` of no parts is empty and of one part is that part |
| `PyText.ConcatAppend` | source_code/utilities/scraping.py:33 | `''.join(a + b)` is `''.join(a) + ''.join(b)` (with Concat's ensures this fixes the join on every list) |
| `JsonValue.Get` | source_code/utilities/scraping.py:293 | `j[k]` succeeds exactly when `j` is an object holding `k`, and gives its value |
| `JsonValue.GetOr` | source_code/utilities/scraping.py:292-295 | a lookup with a fallback gives the value when the key is present and the default otherwise |
| `HtmlGeoScraper.Geometry` | source_code/utilities/scraping.py:127-141 | always a `Point` geometry with exactly `type` and `coordinates`; the coordinates are the whitespace tokens of the text after the label, none empty or containing whitespace, and `[]` without the label |
| `HtmlGeoScraper.Title` | source_code/utilities/scraping.py:214-220 | always the one-key object `{title: v}`; `v` is null exactly when there is no `<h1>`, else its text |
| `HtmlGeoScraper.Location` | source_code/utilities/scraping.py:167-181 | succeeds exactly when the address exists and has at least five tokens; then exactly the keys country, state, place holding tokens 0, 2 and 4; otherwise the missing-address or short-address error |
| `HtmlGeoScraper.GetLocation` | source_code/utilities/scraping.py:173-181 | filling the dictionary key by key gives `Location` |
| `HtmlGeoScraper.Description` | source_code/utilities/scraping.py:183-197 | always the one-key object `{description: v}`; `v` is null exactly when the container is absent, else its stripped, unpadded text |
| `HtmlGeoScraper.GetDescription` | source_code/utilities/scraping.py:189-197 | filling the dictionary gives `Description` |
| `HtmlGeoScraper.PlaceEntries` | source_code/utilities/scraping.py:207-210 | succeeds exactly when every item has its link and its label; then one `{name, distance}` entry per item, in item order |
| `HtmlGeoScraper.NearbyPlaces` | source_code/utilities/scraping.py:199-212 | a missing container is an error, not `[]`; otherwise an array as long as the item list, entry i made from item i, or the incomplete-item error |
| `HtmlGeoScraper.GetNearbyPlaces` | source_code/utilities/scraping.py:205-212 | the append loop builds exactly `NearbyPlaces` |
| `HtmlGeoScraper.Properties` | source_code/utilities/scraping.py:143-165 | succeeds exactly when location and nearby places do, the location error first; then exactly the four keys holding title, location, description and nearby places |
| `HtmlGeoScraper.GetProperties` | source_code/utilities/scraping.py:143-165 | calling the getters in source order gives `Properties` |
| `HtmlGeoScraper.Feature` | source_code/utilities/scraping.py:106-125 | succeeds exactly when the address is full and the nearby list is present and complete; then a Feature with exactly `type` "Feature", a `Point` geometry and the four property keys |
| `HtmlGeoScraper.HTMLGeoScraper.FromPage` | source_code/utilities/scraping.py:84 | the scraper keeps the fetched page |
| `HtmlGeoScraper.HTMLGeoScraper.Open` | source_code/utilities/scraping.py:77-84 | a scraper exists exactly when the fetch answers 200, holding the fetched page; otherwise a fetch failure naming the URL |
| `HtmlGeoScraper.HTMLGeoScraper.ParsePointToGeoJson` | source_code/utilities/scraping.py:106-125 | geometry then properties gives `Feature` of the held page |
| `HtmlGeoScraper.LocationOfTokens` | source_code/utilities/scraping.py:175-179 | for any address made of at least five tokens, the location is tokens 0, 2 and 4, whatever the others are |
| `HtmlGeoScraper.MultiWordAddress` | source_code/utilities/scraping.py:175-179 | the address made of the tokens Israel , Tel Aviv District , Tel Aviv, joined by single spaces, gives country Israel, state Tel, place District |
| `HtmlGeoScraper.MultiWordAddressText` | source_code/utilities/scraping.py:175 | the scenario's tokens are those of "Israel , Tel Aviv District , Tel Aviv" |
| `HtmlGeoScraper.MultiWordAddressScenario` | source_code/utilities/scraping.py:175-179 | the address text "Israel , Tel Aviv District , Tel Aviv" gives country Israel, state Tel, place District |
| `ApiGeoScraper.PlaceId` | source_code/utilities/scraping.py:230 | an id exists exactly when the URL has at least three '/', and contains no '/' |
| `ApiGeoScraper.PlaceIdOfSegments` | source_code/utilities/scraping.py:230 | the id of a URL assembled from four or more segments is the fourth segment |
| `ApiGeoScraper.RequestUrl` | source_code/utilities/scraping.py:232 | the request is the fixed prefix, the id, then the fixed data-block suffix |
| `ApiGeoScraper.APIGeoScraper.FromResponse` | source_code/utilities/scraping.py:230-238 | the scraper keeps the id and the parsed response |
| `ApiGeoScraper.APIGeoScraper.Open` | source_code/utilities/scraping.py:229-238 | a URL without a fourth segment fails first; otherwise the place's request URL is fetched and a scraper exists exactly when it answers 200, holding the id and the body |
| `ApiGeoScraper.APIGeoScraper.GetGeometry` | source_code/utilities/scraping.py:260-268 | always a `polygon` geometry; coordinates are `json['polygon']` unchanged when present, else `[]` |
| `ApiGeoScraper.APIGeoScraper.GetTitle` | source_code/utilities/scraping.py:312-317 | `json['title']` unchanged (not wrapped) when present, null when absent |
| `ApiGeoScraper.APIGeoScraper.GetLocation` | source_code/utilities/scraping.py:291-296 | `json['location']` unchanged when present, null when absent |
| `ApiGeoScraper.APIGeoScraper.GetDescription` | source_code/utilities/scraping.py:298-303 | `json['description']` unchanged (not wrapped) when present, null when absent |
| `ApiGeoScraper.APIGeoScraper.GetNearbyPlaces` | source_code/utilities/scraping.py:305-310 | `json['nearestPlaces']` unchanged when present, null when absent |
| `ApiGeoScraper.APIGeoScraper.GetProperties` | source_code/utilities/scraping.py:270-289 | exactly the four property keys, holding the four getters' results |
| `ApiGeoScraper.APIGeoScraper.ParsePointToGeoJson` | source_code/utilities/scraping.py:249-258 | always a Feature with exactly the three top-level keys, a `polygon` geometry and the four property keys |
| `ApiGeoScraper.OnlyReadKeysMatter` | source_code/utilities/scraping.py:260-317 | responses that agree on `polygon`, `title`, `location`, `description`, `nearestPlaces` give the same Feature: no other key is read |
| `ApiGeoScraper.NonObjectResponse` | source_code/utilities/scraping.py:260-317 | a response that is not an object gives empty coordinates and four null properties |
| `ApiGeoScraper.TitleOnlyResponse` | source_code/utilities/scraping.py:249-317 | `{"title": "Park X"}` gives the raw title, null location, description and nearest places, and `[]` coordinates |

## Left out

- HTTP transport. The `requests` calls in `check_last_page` and in both `__init__` are the `get` parameter. The model keeps only the status test and the body. The printed messages and the timestamp in the raised message are left out, since they are console output and clock.
- Both `__call__` methods are left out. They append `dumps(record) + ',\n'` to a file and insert the record into MongoDB, which are I/O sinks.
- `docker/scraper/source_code/utilities/mongo.py` is left out. It holds only MongoDB connection, TTL-index and collection-existence plumbing.
- HTML parsing is left out: BeautifulSoup, `SoupStrainer`, lxml, and the `re.compile('Coordinates')` search. `Page` and `Listing` hold the fragments the parser would locate: the sibling text after the first matching `<b>`, the text of the first `<h1>` and `<address>`, the description text, the nearby `<li>` items, and the `span3` anchors. This includes how `get_text()` concatenates nested text.
- JSON parsing and serialisation (`json.loads` / `dumps`) are left out. The API body is an already-parsed `Json` value, so a body that is not valid JSON is not modelled. JSON numbers are integers, because the scrapers pass them through without arithmetic.
- `utilities.general.iterate_function` is not part of this model: it is imported but never used by the modelled code.
