# Lead-Generation scraper: verified model of the discovery and extraction core

This project models the sequential logic of the Google Maps and Yelp lead scrapers.
Each engine builds a search URL from a query and a location. It then discovers the
detail-page links: Google Maps scrolls until an end-of-list marker appears or a time
budget runs out, and Yelp follows next-page buttons until there are none. Next it
extracts one record per link (title, address, phone, and website or tags). Finally it
keeps the records in `_entries`, behind a getter that refuses to read an empty store,
a setter that always refuses, and a CSV save that checks the file name first.

The browser and the HTML parser are oracles:

- Google Maps discovery reads a function `view: nat -> ScrollView`. It gives, after k
  scrolls, whether the end marker is present, the seconds elapsed since the loop started,
  rounded up, and the anchors' hrefs in DOM order.
- Yelp discovery reads the finite sequence of result pages the next-page button leads
  through. Each page gives its hrefs and whether a next-page button is present.
- Extraction reads `render: string -> Page`, the result of each selector lookup on the
  page a URL loads, as an `Option<string>` (or a sequence of them for the Yelp tags).

Modules:

- `Wrappers`: Option, Result and Outcome.
- `Text`: `endswith`, `join`, and `split` as the inverse of `join`.
- `Records`: the raised exceptions, the record built by `dict(zip(...))`, and `Collect`,
  the fail-fast list-building loop the engines use.
- `Base`: `BaseEngine`.
- `GoogleMaps`: the final Google Maps engine.
- `GoogleMapsDraft`: the standalone draft engine.
- `Yelp`: the Yelp engine.

Python exceptions become the `Failure`/`Fail` arm of a result. They are `ValueError` for
a bad file name and for the setter, `NotImplementedError` for an empty store, and
`AttributeError` for `.get_text()` on a selector that found nothing.

Python inheritance from `BaseEngine` is modelled by composition. `GoogleMapsEngine` and
`YelpEngine` hold their inherited `_entries` in a `const base: BaseEngine`.

Points of the code's behaviour that the model keeps as written:

- Nothing is URL-escaped: the query and location are substituted verbatim, and
  `Yelp.QueryNotEscaped` shows an `&` in the query cutting `find_desc` short.
- The Yelp template appends a fixed `%2C+Philippines` to the location.
- On Yelp, the title, address and phone are unguarded: a miss is a fault, and only the
  tags fall back, to `""`.
- Without the end marker, the scroll loop stops at the first scroll after which strictly
  more than the budget has elapsed.

## Model

| member | source | states |
|---|---|---|
| `Text.EndsWithIffStem` | project/apps/engines/base.py:15 | `filename.endswith('.csv')` holds exactly when the name is some stem followed by `.csv` |
| `Text.SplitJoin` | project/apps/yelp/engine.py:84 | the comma-join of at least one comma-free part splits back into exactly those parts |
| `Text.SplitJoinThen` | project/apps/google_maps/engine.py:54 | `','.join(coords)` followed by `,` and more text splits into the coordinates and then the pieces of the rest |
| `Records.ZipPairs` | project/apps/google_maps/engine.py:176 | `zip` pairs the i-th field name with the i-th value and stops at the shorter list |
| `Records.ZipKeys` | project/apps/yelp/engine.py:93 | with one value per field name, the entry's keys are exactly the field names in order, each bound to its value |
| `Records.CollectAll` | project/apps/google_maps/engine.py:171-178 | an append loop whose steps may raise completes iff every step succeeds, and then yields one value per input in input order |
| `Records.CollectFirstFault` | project/apps/yelp/engine.py:88-97 | the exception that aborts such a loop is the one raised by the first failing step |
| `Base.SaveReachesWriter` | project/apps/engines/base.py:15-22 | the writer is reached iff the name ends in `.csv` and `_entries` is non-empty, and it then receives the file name, `FIELD_NAMES` and all of `_entries` |
| `Base.SaveGuardOrder` | project/apps/engines/base.py:15-20 | a name not ending in `.csv` raises `ValueError` whatever the entries, including none; a `.csv` name with empty entries raises `NotImplementedError` |
| `Base.SaveAgreesWithGetter` | project/apps/engines/base.py:17-33 | for a `.csv` name, saving reaches the writer exactly when the getter succeeds, and the writer receives exactly what the getter returns |
| `Base.ExtensionExamples` | project/apps/engines/base.py:15-16 | `leads`, `leads.CSV` and `leads.csv.bak` are rejected; `.csv` and the default `google_maps_leads.csv` are accepted |
| `Base.BaseEngine.constructor` | project/apps/google_maps/engine.py:47 | a new engine's `_entries` is empty and its field names are the site's |
| `Base.BaseEngine.SaveToCsv` | project/apps/engines/base.py:7-22 | the result is the save decision: `ValueError` first, then `NotImplementedError`, else the writer call with all entries |
| `Base.BaseEngine.Entries` | project/apps/engines/base.py:24-33 | the getter fails iff `_entries` is empty and otherwise returns `_entries` unchanged |
| `Base.BaseEngine.SetEntries` | project/apps/engines/base.py:35-42 | the setter raises `ValueError` for every argument and, having no `modifies` clause, changes nothing |
| `GoogleMaps.SearchUrlLayout` | project/apps/google_maps/engine.py:52-55 | the URL is the fixed head, `query%20location` verbatim, `/@`, then text that splits on `,` into the coordinates followed by the zoom and the fixed tail |
| `GoogleMaps.SearchSegment` | project/apps/google_maps/engine.py:52 | with no `/` in query or location, the path segment after `/maps/search/` is exactly `query%20location` |
| `GoogleMaps.ScrollsIsFirstHalt` | project/apps/google_maps/engine.py:129-133 | the loop scrolls at least once and stops at the first scroll after which the marker is present or elapsed time is strictly over the budget; that scroll is unique |
| `GoogleMaps.ScrollsBound` | project/apps/google_maps/engine.py:129-133 | since every scroll sleeps 4 s, the loop performs at most budget / 4 + 1 scrolls |
| `GoogleMaps.NoMarkerRunsOutTheBudget` | project/apps/google_maps/engine.py:127-133 | with no marker and each scroll taking its 4 s sleep plus under a second of overhead in all, the loop stops at the first scroll whose sleeps cover the budget (25 for the 100 s budget) |
| `GoogleMaps.ScrapeUrls` | project/apps/google_maps/engine.py:113-124 | the returned URLs are the anchors' hrefs, one per anchor, in DOM order |
| `GoogleMaps.ScrollUntilDone` | project/apps/google_maps/engine.py:126-136 | the loop's scroll count is the first halting scroll, and the result is the hrefs shown at that point |
| `GoogleMaps.ParsedFields` | project/apps/google_maps/engine.py:148-169 | a page yields values iff the title is found and no present icon lacks its text; the values are title, address, phone, website in that order, each `-` when its icon is missing |
| `GoogleMaps.MissingTitleFaults` | project/apps/google_maps/engine.py:156 | a missing title is a hard fault and the page yields no values |
| `GoogleMaps.MissingIconOnlyAffectsItsField` | project/apps/google_maps/engine.py:163-167 | removing one icon from a page that parses gives 4 values, with `-` in that field and every other field unchanged |
| `GoogleMaps.ParseDataWithSoup` | project/apps/google_maps/engine.py:148-169 | the title followed by the icon loop computes exactly the parse described by `ParsedFields` |
| `GoogleMaps.ExtractedRecords` | project/apps/google_maps/engine.py:171-178 | extraction succeeds iff every page parses, and then gives one record per URL, in URL order, whose keys are exactly `FIELD_NAMES` |
| `GoogleMaps.GetSearchResultsEntries` | project/apps/google_maps/engine.py:138-178 | the visit-parse-append loop computes exactly the extraction of `ExtractedRecords`, aborting on the first faulting page |
| `GoogleMaps.GoogleMapsEngine.constructor` | project/apps/google_maps/engine.py:39-55 | `_entries` is empty, `search_query` is `query%20location`, and `url` is the template with it, the joined coordinates and the zoom |
| `GoogleMaps.GoogleMapsEngine.Run` | project/apps/google_maps/engine.py:57-75 | `_entries` becomes the extraction of the URLs found with the 100 s budget; if a page faults, the fault is returned and `_entries` is left as it was |
| `GoogleMapsDraft.ScrollsAtMostThree` | project/apps/google_maps_parser/engine.py:184-191 | with the draft's 10 s budget the loop scrolls at least once and at most three times |
| `GoogleMapsDraft.NoMarkerStopsAtThird` | project/apps/google_maps_parser/engine.py:38-39 | with no marker and at most 10 s elapsed after each of the first two scrolls, the draft stops after the third scroll, since its three 4 s sleeps alone exceed the 10 s budget, whatever the browser calls cost |
| `GoogleMapsDraft.GoogleMapsParserEngine.constructor` | project/apps/google_maps_parser/engine.py:42-58 | `_entries` is empty and `url` is built as in the final engine |
| `GoogleMapsDraft.GoogleMapsParserEngine.Run` | project/apps/google_maps_parser/engine.py:60-78 | `_entries` becomes the extraction of the URLs found with the 10 s budget, or is left as it was when a page faults |
| `GoogleMapsDraft.GoogleMapsParserEngine.SaveToCsv` | project/apps/google_maps_parser/engine.py:80-95 | the inline save checks the extension before emptiness and hands the writer all of `_entries` only when both pass |
| `GoogleMapsDraft.GoogleMapsParserEngine.Entries` | project/apps/google_maps_parser/engine.py:97-106 | the inline getter fails iff `_entries` is empty and otherwise returns it unchanged |
| `GoogleMapsDraft.GoogleMapsParserEngine.SetEntries` | project/apps/google_maps_parser/engine.py:108-115 | the inline setter raises `ValueError` for every argument and changes nothing |
| `GoogleMapsDraft.Usage` | project/apps/google_maps_parser/engine.py:24-32 | the documented lifecycle: before `run` the getter and the default save fail with the empty-store errors and the setter is refused; after `run` an extraction fault reaches the caller, and otherwise the getter returns exactly the extracted entries and the default save hands them to the writer under `google_maps_leads.csv`, both failing as empty when nothing was found |
| `Yelp.SearchUrlParams` | project/apps/yelp/engine.py:33-35 | with no `&` in query or location, the query string splits into the query verbatim, `find_loc=` with the location and `%2C+Philippines`, and `start=0` |
| `Yelp.QueryNotEscaped` | project/apps/yelp/engine.py:23 | an `&` in the query is not escaped, so `find_desc` holds only the text before it |
| `Yelp.CollectedAppend` | project/apps/yelp/engine.py:42-57 | the URLs collected over consecutive runs of pages are the concatenation of each run's, in page-visit order |
| `Yelp.CollectedFromHrefs` | project/apps/yelp/engine.py:41-48 | a URL is collected iff it is `https://www.yelp.com` followed by an href of one of the visited pages |
| `Yelp.KeepsDuplicates` | project/apps/yelp/engine.py:46-48 | the same href on two pages is collected twice: there is no deduplication |
| `Yelp.GetSearchResultsUrls` | project/apps/yelp/engine.py:37-59 | pagination stops exactly at the first page without a next-page button, with that page's links included, and returns the host-prefixed hrefs of all pages up to it |
| `Yelp.ParsedFields` | project/apps/yelp/engine.py:65-86 | a page yields values iff title, address, phone and every tag link are found; the values are those three and the comma-joined tags, with `""` when there are no tags |
| `Yelp.TagsRoundTrip` | project/apps/yelp/engine.py:78-84 | when there is at least one tag and no tag contains a comma, the tags field splits back into the tag texts in DOM order |
| `Yelp.MissingRequiredFaults` | project/apps/yelp/engine.py:69-76 | a missing title, address or phone is a hard fault, with no sentinel fallback |
| `Yelp.CollectTags` | project/apps/yelp/engine.py:78-82 | the tag loop yields each tag link's text in DOM order, and faults on a tag element without a link |
| `Yelp.ParseDataWithSoup` | project/apps/yelp/engine.py:65-86 | the statement-by-statement parse computes exactly the parse described by `Yelp.ParsedFields` |
| `Yelp.ExtractedRecords` | project/apps/yelp/engine.py:88-97 | extraction succeeds iff every page parses, and then gives one record per URL, in URL order, whose keys are exactly `FIELD_NAMES` |
| `Yelp.GetSearchResultsEntries` | project/apps/yelp/engine.py:61-97 | the visit-parse-append loop computes exactly the extraction of `Yelp.ExtractedRecords`, aborting on the first faulting page |
| `Yelp.YelpEngine.constructor` | project/apps/yelp/engine.py:27-35 | `_entries` is empty and `url` is the template with query and location substituted verbatim |

## Left out

- Playwright is not modelled: browser launch and configuration, `goto`, `hover`, `mouse.wheel`, `click`, `scroll_into_view_if_needed`, `page.content()` and closing the browser are foreign async I/O. The oracles above replace them, and closing the browser on every path is not modelled.
- The `asyncio.sleep` settle delays are not modelled. They only affect timing, which the model sees through the elapsed ticks.
- BeautifulSoup selector matching (`select_one`, `select`, `find`, `.parent` chains, `get_text`) is not modelled. Each lookup's result is given as an `Option<string>`. A `.parent` chain that runs out above the icon image is folded into "the `.Io6YTe` lookup found nothing".
- An anchor without an `href` attribute is not modelled. `get_attribute` would return `None`, and hrefs are modelled as strings.
- `get_coords_by_location` (the geocoder) is an external collaborator. The coordinates are given to the constructors as a sequence of strings.
- `CsvWriter` (header and append logic) is an external collaborator. A successful save returns the `CsvAppend` call it would make.
- `time.time()` float arithmetic is replaced by the elapsed seconds rounded up, which makes `elapsed > budget` the same test as the float one for a whole-second budget. The `int | float` zoom is an opaque string, `"12"` by default.
- The `entries` getter hands out the live `_entries` list in the source, so a caller can `.clear()` or `.append` to it and bypass the refusing setter (after a `.clear()`, `save_to_csv` raises the empty-store error). The model's `Entries` returns a `seq` value, so it does not capture that aliasing: in the model only `run` changes the entries.
- A detail page is modelled by `render`, a function of its URL, so two visits to the same URL see the same page. The source loads the page afresh on every visit, and the Yelp URL list can hold duplicates, so a page that changes between visits is not modelled.
- GoogleMaps.ScrollUntilDone: requires `Clocked(view)`, meaning at least 4k s have passed after k scrolls, as each scroll's sleep guarantees. Without such a clock the Python loop terminates only by the marker.
- Yelp.GetSearchResultsUrls: returns `None` when the given pages run out while a next-page button is still shown. The source would go on paginating beyond what is observed.
- The Yelp engine has no `run`: neither its class nor `BaseEngine` defines one, so none is modelled. The `print(entry)` in its extraction loop is left out.
- `dict(zip(...))` is modelled as an ordered list of pairs. Duplicate keys cannot arise, since every `FIELD_NAMES` list is duplicate-free.
- project/main.py and project/apps/google_maps_parser/main.py are interactive `input`/`print`/`asyncio.run` glue. project/apps/engines/abstract.py holds only empty stubs.
