/** `GoogleMapsEngine` (project/apps/google_maps/engine.py): the search URL, the
    scroll-until-done discovery loop, the per-place parse and the extraction loop.
    The browser is an oracle: what the results panel shows after each scroll, and
    what each detail page's selectors find once it has loaded. */
module GoogleMaps {
  import opened Wrappers
  import opened Text
  import opened Records
  import opened Base

  const BASE_URL_HEAD := "https://www.google.com/maps/search/"
  const BASE_URL_TAIL := "z/data=!3m1!4b1?entry=ttu"
  const FIELD_NAMES := ["Title", "Address", "PhoneNumber", "WebsiteURL"]
  const SLEEP_PER_SCROLL_S: nat := 4
  const SCROLL_TIME_DURATION_S: nat := 100
  /** The zoom is kept as the text Python's `format` gives it; the default is 12. */
  const DEFAULT_ZOOM := "12"

  // ---------------------------------------------------------------- search URL

  /** `f'{query}%20{location}'`: nothing is escaped. */
  function SearchQuery(query: string, location: string): string {
    query + "%20" + location
  }

  /** `BASE_URL.format(query=search_query, coords=','.join(coords), zoom=zoom)` */
  function SearchUrl(searchQuery: string, coords: seq<string>, zoom: string): string {
    BASE_URL_HEAD + searchQuery + "/@" + Join(coords, ",") + "," + zoom + BASE_URL_TAIL
  }

  /** The URL is the template with the three values in their slots: the search
      query verbatim after the fixed head, then "/@", then text that splits on ','
      into the coordinates followed by the zoom and the fixed tail. */
  lemma SearchUrlLayout(query: string, location: string, coords: seq<string>, zoom: string)
    requires |coords| >= 1
    requires forall i :: 0 <= i < |coords| ==> ',' !in coords[i]
    requires ',' !in zoom
    ensures var sq := SearchQuery(query, location);
      var url := SearchUrl(sq, coords, zoom);
      var at := |BASE_URL_HEAD| + |sq| + 2;
      && url[..|BASE_URL_HEAD|] == BASE_URL_HEAD
      && url[|BASE_URL_HEAD|..|BASE_URL_HEAD| + |sq|] == query + "%20" + location
      && url[|BASE_URL_HEAD| + |sq|..at] == "/@"
      && Split(url[at..], ',') == coords + [zoom + BASE_URL_TAIL]
  {
    var sq := SearchQuery(query, location);
    var after := Join(coords, [',']) + [','] + (zoom + BASE_URL_TAIL);
    assert SearchUrl(sq, coords, zoom) == (BASE_URL_HEAD + sq) + "/@" + after;
    Slots(BASE_URL_HEAD, sq, "/@" + after);
    Slots(BASE_URL_HEAD + sq, "/@", after);
    SplitJoinThen(coords, ',', zoom + BASE_URL_TAIL);
    TailHasNoComma();
    SplitFree(zoom + BASE_URL_TAIL, ',');
  }

  lemma TailHasNoComma()
    ensures ',' !in BASE_URL_TAIL
  {
  }

  /** Without a '/' in the query or the location, the path segment after
      "/maps/search/" is exactly `query%20location`. */
  lemma SearchSegment(query: string, location: string, coords: seq<string>, zoom: string)
    requires '/' !in query && '/' !in location
    ensures Split(SearchUrl(SearchQuery(query, location), coords, zoom)[|BASE_URL_HEAD|..], '/')[0]
      == query + "%20" + location
  {
    var sq := SearchQuery(query, location);
    var rest := "@" + Join(coords, ",") + "," + zoom + BASE_URL_TAIL;
    assert '/' !in sq;
    assert SearchUrl(sq, coords, zoom)[|BASE_URL_HEAD|..] == sq + ['/'] + rest;
    SplitAtFirst(sq, '/', rest);
  }

  // ---------------------------------------------------------------- discovery

  /** What the results panel shows after a number of scrolls: whether the end-of-list
      marker `.m6QErb.tLjsW.eKbjU` is present, the seconds elapsed since the loop
      started rounded up to a whole number (so `elapsed > budget` is the source's float
      comparison against a whole-second budget), and the `href` of every `a.hfpxzc` anchor in DOM order. */
  datatype ScrollView = ScrollView(endMarker: bool, elapsed: nat, hrefs: seq<string>)

  /** Every scroll sleeps SLEEP_PER_SCROLL_S seconds, so after k scrolls at least
      4k seconds have passed. */
  ghost predicate Clocked(view: nat -> ScrollView) {
    forall k: nat :: SLEEP_PER_SCROLL_S * k <= view(k).elapsed
  }

  /** The loop's exit test after scroll k: the marker, or strictly more than the budget. */
  predicate Halts(view: nat -> ScrollView, budget: nat, k: nat) {
    view(k).endMarker || view(k).elapsed > budget
  }

  /** k is the first scroll after which the exit test holds. */
  ghost predicate FirstHalt(view: nat -> ScrollView, budget: nat, k: nat) {
    && 1 <= k
    && Halts(view, budget, k)
    && forall j :: 1 <= j < k ==> !Halts(view, budget, j)
  }

  /** Number of scrolls the loop performs when it is at scroll k. */
  function ScrollsFrom(view: nat -> ScrollView, budget: nat, k: nat): nat
    requires Clocked(view)
    decreases budget + SLEEP_PER_SCROLL_S - SLEEP_PER_SCROLL_S * k
  {
    if Halts(view, budget, k) then k else ScrollsFrom(view, budget, k + 1)
  }

  /** The number of scrolls a whole run performs. */
  function Scrolls(view: nat -> ScrollView, budget: nat): nat
    requires Clocked(view)
  {
    ScrollsFrom(view, budget, 1)
  }

  lemma {:induction false} ScrollsFromFirstHalt(view: nat -> ScrollView, budget: nat, k: nat)
    requires Clocked(view) && 1 <= k
    requires forall j :: 1 <= j < k ==> !Halts(view, budget, j)
    ensures FirstHalt(view, budget, ScrollsFrom(view, budget, k))
    decreases budget + SLEEP_PER_SCROLL_S - SLEEP_PER_SCROLL_S * k
  {
    if !Halts(view, budget, k) {
      ScrollsFromFirstHalt(view, budget, k + 1);
    }
  }

  /** The loop scrolls at least once, stops at the first scroll whose exit test
      holds, and this first scroll is unique. */
  lemma ScrollsIsFirstHalt(view: nat -> ScrollView, budget: nat)
    requires Clocked(view)
    ensures FirstHalt(view, budget, Scrolls(view, budget))
    ensures forall k :: FirstHalt(view, budget, k) ==> k == Scrolls(view, budget)
  {
    ScrollsFromFirstHalt(view, budget, 1);
    var n := Scrolls(view, budget);
    forall k | FirstHalt(view, budget, k) ensures k == n {
    }
  }

  /** With the sleep-driven clock the loop never outlasts the budget by more than one
      scroll: at most budget / 4 + 1 scrolls. */
  lemma ScrollsBound(view: nat -> ScrollView, budget: nat)
    requires Clocked(view)
    ensures Scrolls(view, budget) <= budget / SLEEP_PER_SCROLL_S + 1
  {
    ScrollsIsFirstHalt(view, budget);
    var n := Scrolls(view, budget);
    if n > 1 {
      assert !Halts(view, budget, n - 1);
      assert SLEEP_PER_SCROLL_S * (n - 1) <= view(n - 1).elapsed;
    }
  }

  /** When the marker never shows, each scroll takes its 4 s sleep plus the wheel and
      selector calls. With that overhead totalling more than nothing and at most a second,
      the rounded-up elapsed time after k scrolls is 4k + 1, and the loop stops at the
      first scroll whose sleeps alone cover the budget: 25 scrolls for 100 s. */
  lemma NoMarkerRunsOutTheBudget(view: nat -> ScrollView, budget: nat)
    requires forall k: nat :: !view(k).endMarker && view(k).elapsed == SLEEP_PER_SCROLL_S * k + 1
    ensures Clocked(view)
    ensures budget <= SLEEP_PER_SCROLL_S * Scrolls(view, budget)
    ensures Scrolls(view, budget) == 1 || SLEEP_PER_SCROLL_S * (Scrolls(view, budget) - 1) < budget
    ensures budget == SCROLL_TIME_DURATION_S ==> Scrolls(view, budget) == 25
  {
    var n := if budget == 0 then 1 else (budget + SLEEP_PER_SCROLL_S - 1) / SLEEP_PER_SCROLL_S;
    assert FirstHalt(view, budget, n) by {
      forall j | 1 <= j < n ensures !Halts(view, budget, j) {
        assert view(j).elapsed == SLEEP_PER_SCROLL_S * j + 1;
      }
      assert view(n).elapsed == SLEEP_PER_SCROLL_S * n + 1;
    }
    ScrollsIsFirstHalt(view, budget);
  }

  /** `scrape_urls`: the `href` of every matched anchor, one per anchor, in DOM order. */
  method ScrapeUrls(hrefs: seq<string>) returns (urls: seq<string>)
    ensures urls == hrefs
  {
    urls := [];
    for i := 0 to |hrefs|
      invariant urls == hrefs[..i]
    {
      urls := urls + [hrefs[i]];
    }
  }

  /** `_get_search_results_urls` with a given time budget: scroll (and sleep), then
      test for the marker or an elapsed time strictly over the budget; stop at the
      first scroll that passes the test, then scrape the anchors shown then. */
  method ScrollUntilDone(view: nat -> ScrollView, budget: nat) returns (scrolls: nat, urls: seq<string>)
    requires Clocked(view)
    ensures FirstHalt(view, budget, scrolls)
    ensures urls == view(scrolls).hrefs
  {
    scrolls := 0;
    while true
      invariant forall j :: 1 <= j <= scrolls ==> !Halts(view, budget, j)
      invariant SLEEP_PER_SCROLL_S * scrolls <= budget
      decreases budget - SLEEP_PER_SCROLL_S * scrolls
    {
      scrolls := scrolls + 1;
      var seen := view(scrolls);
      if seen.endMarker || seen.elapsed > budget {
        break;
      }
    }
    urls := ScrapeUrls(view(scrolls).hrefs);
  }

  // ---------------------------------------------------------------- extraction

  /** `soup.select_one(f'img[src="{src}"]')` for one icon: no such image, or the image
      and, three parents up, the text of `.Io6YTe` if that lookup finds it. */
  datatype IconLookup = NoIcon | Icon(info: Option<string>)

  /** What the selectors find on one place page: the `.DUwDvf.lfPIob` title and the
      address, phone and website icons. */
  datatype PlacePage = PlacePage(title: Option<string>, address: IconLookup, phone: IconLookup, website: IconLookup)

  const SENTINEL := "-"

  /** One icon field: the sentinel when the icon is absent; `.get_text()` of the
      `.Io6YTe` lookup when it is present, which raises when that lookup missed. */
  function InfoOf(lookup: IconLookup): Result<string, Error> {
    match lookup
    case NoIcon => Success(SENTINEL)
    case Icon(info) => TextOf(info)
  }

  /** `parse_data_with_soup`: the title, then the info of each icon in order. */
  function Parsed(page: PlacePage): Result<seq<string>, Error> {
    var title :- TextOf(page.title);
    var infos :- Collect([page.address, page.phone, page.website], InfoOf);
    Success([title] + infos)
  }

  /** A page yields a value exactly when the title is found and no present icon lacks
      its text; the value is title, address, phone, website, each icon field on its own. */
  lemma ParsedFields(page: PlacePage)
    ensures Parsed(page).Success? <==>
      page.title.Some? && InfoOf(page.address).Success? && InfoOf(page.phone).Success? && InfoOf(page.website).Success?
    ensures Parsed(page).Success? ==>
      Parsed(page).value == [page.title.value, InfoOf(page.address).value, InfoOf(page.phone).value, InfoOf(page.website).value]
  {
    var icons := [page.address, page.phone, page.website];
    CollectAll(icons, InfoOf);
    assert icons[0] == page.address && icons[1] == page.phone && icons[2] == page.website;
  }

  /** A missing title is a hard fault: no values for that page. */
  lemma MissingTitleFaults(page: PlacePage)
    requires page.title.None?
    ensures Parsed(page) == Failure(NO_ELEMENT)
  {
  }

  /** Removing one icon from a page that parses puts "-" in that field only. */
  lemma MissingIconOnlyAffectsItsField(page: PlacePage)
    requires Parsed(page).Success?
    ensures |Parsed(page).value| == 4
    ensures Parsed(page.(address := NoIcon)) == Success(Parsed(page).value[1 := SENTINEL])
    ensures Parsed(page.(phone := NoIcon)) == Success(Parsed(page).value[2 := SENTINEL])
    ensures Parsed(page.(website := NoIcon)) == Success(Parsed(page).value[3 := SENTINEL])
  {
    var v := Parsed(page).value;
    ParsedFields(page);
    ParsedFields(page.(address := NoIcon));
    assert Parsed(page.(address := NoIcon)).value == v[1 := SENTINEL];
    ParsedFields(page.(phone := NoIcon));
    assert Parsed(page.(phone := NoIcon)).value == v[2 := SENTINEL];
    ParsedFields(page.(website := NoIcon));
    assert Parsed(page.(website := NoIcon)).value == v[3 := SENTINEL];
  }

  /** `parse_data_with_soup` as the source runs it: the title, then a loop over the
      three icon sources appending each field's text or "-". */
  method ParseDataWithSoup(page: PlacePage) returns (r: Result<seq<string>, Error>)
    ensures r == Parsed(page)
  {
    if page.title.None? {
      return Failure(NO_ELEMENT);
    }
    var data := [page.title.value];
    var icons := [page.address, page.phone, page.website];
    assert icons[..0] == [] && data[1..] == [];
    for i := 0 to |icons|
      invariant |data| == i + 1 && data[0] == page.title.value
      invariant Collect(icons[..i], InfoOf) == Success(data[1..])
    {
      var info: string;
      match icons[i] {
        case NoIcon =>
          info := SENTINEL;
        case Icon(found) =>
          if found.None? {
            CollectAbort(icons, i, InfoOf, data[1..]);
            return Failure(NO_ELEMENT);
          }
          info := found.value;
      }
      assert InfoOf(icons[i]) == Success(info);
      CollectStep(icons, i, InfoOf, data[1..]);
      assert (data + [info])[1..] == data[1..] + [info];
      data := data + [info];
    }
    assert icons[..|icons|] == icons;
    assert data == [page.title.value] + data[1..];
    r := Success(data);
  }

  /** One record per URL: its page's values keyed by FIELD_NAMES. */
  function PlaceRecord(page: PlacePage): Result<Record, Error> {
    RecordOf(FIELD_NAMES, Parsed(page))
  }

  /** `_get_search_results_entries`: visit each URL in order and zip its values with
      FIELD_NAMES; a fault on any page aborts the whole extraction. */
  function Extracted(urls: seq<string>, render: string -> PlacePage): Result<seq<Record>, Error> {
    Collect(urls, (u: string) => PlaceRecord(render(u)))
  }

  /** Extraction succeeds exactly when every page parses; it then gives one record per
      URL, in URL order, whose keys are exactly FIELD_NAMES in order. */
  lemma ExtractedRecords(urls: seq<string>, render: string -> PlacePage)
    ensures Extracted(urls, render).Success? <==> forall i :: 0 <= i < |urls| ==> Parsed(render(urls[i])).Success?
    ensures Extracted(urls, render).Success? ==>
      && |Extracted(urls, render).value| == |urls|
      && forall i :: 0 <= i < |urls| ==>
           && Extracted(urls, render).value[i] == Zip(FIELD_NAMES, Parsed(render(urls[i])).value)
           && Keys(Extracted(urls, render).value[i]) == FIELD_NAMES
  {
    var step := (u: string) => PlaceRecord(render(u));
    CollectAll(urls, step);
    forall i | 0 <= i < |urls| && Parsed(render(urls[i])).Success?
      ensures Keys(Zip(FIELD_NAMES, Parsed(render(urls[i])).value)) == FIELD_NAMES
    {
      ParsedFields(render(urls[i]));
      ZipKeys(FIELD_NAMES, Parsed(render(urls[i])).value);
    }
  }

  /** The extraction loop of `_get_search_results_entries`; `render(url)` stands for
      `_open_url_and_wait(url)` followed by `page.content()`. */
  method GetSearchResultsEntries(urls: seq<string>, render: string -> PlacePage) returns (r: Result<seq<Record>, Error>)
    ensures r == Extracted(urls, render)
  {
    var step := (u: string) => PlaceRecord(render(u));
    var entries: seq<Record> := [];
    for i := 0 to |urls|
      invariant Collect(urls[..i], step) == Success(entries)
    {
      var data := ParseDataWithSoup(render(urls[i]));
      if data.Failure? {
        CollectAbort(urls, i, step, entries);
        return Failure(data.error);
      }
      CollectStep(urls, i, step, entries);
      entries := entries + [Zip(FIELD_NAMES, data.value)];
    }
    assert urls[..|urls|] == urls;
    r := Success(entries);
  }

  // ---------------------------------------------------------------- the engine

  /** `GoogleMapsEngine(BaseEngine, ...)`; the inherited `_entries` lives in `base`. */
  class GoogleMapsEngine {
    const base: BaseEngine
    const query: string
    const location: string
    const zoom: string
    /** the geocoder's answer for `location`, given */
    const coords: seq<string>
    const searchQuery: string
    const url: string

    constructor (query: string, location: string, coords: seq<string>, zoom: string := DEFAULT_ZOOM)
      ensures fresh(base) && base.entries == [] && base.fieldNames == FIELD_NAMES
      ensures this.query == query && this.location == location && this.coords == coords && this.zoom == zoom
      ensures searchQuery == SearchQuery(query, location) && url == SearchUrl(searchQuery, coords, zoom)
    {
      base := new BaseEngine(FIELD_NAMES);
      this.query := query;
      this.location := location;
      this.coords := coords;
      this.zoom := zoom;
      var sq := SearchQuery(query, location);
      searchQuery := sq;
      url := SearchUrl(sq, coords, zoom);
    }

    /** `run`: discover the URLs with the 100 s budget, extract them, and replace
        `_entries` with the result; a fault leaves `_entries` as it was. `view` is
        what the results panel opened at `url` shows, `render` each detail page. */
    method Run(view: nat -> ScrollView, render: string -> PlacePage) returns (outcome: Outcome<Error>)
      requires Clocked(view)
      modifies base
      ensures var found := Extracted(view(Scrolls(view, SCROLL_TIME_DURATION_S)).hrefs, render);
        && (found.Success? ==> outcome == Pass && base.entries == found.value)
        && (found.Failure? ==> outcome == Fail(found.error) && base.entries == old(base.entries))
    {
      var scrolls, urls := ScrollUntilDone(view, SCROLL_TIME_DURATION_S);
      ScrollsIsFirstHalt(view, SCROLL_TIME_DURATION_S);
      var found := GetSearchResultsEntries(urls, render);
      match found
      case Failure(e) =>
        outcome := Fail(e);
      case Success(entries) =>
        base.entries := entries;
        outcome := Pass;
    }
  }
}
