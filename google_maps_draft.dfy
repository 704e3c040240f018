/** The standalone draft `GoogleMapsEngine` (project/apps/google_maps_parser/engine.py).
    Its URL, parse and extraction code is the same text as the final engine's and is
    reused from `GoogleMaps`; what it has of its own is a 10 s scroll budget and the
    `_entries` guards written inline rather than inherited. */
module GoogleMapsDraft {
  import opened Wrappers
  import opened Records
  import opened Base
  import GM = GoogleMaps

  const SCROLL_TIME_DURATION_S: nat := 10
  const FIELD_NAMES := ["Title", "Address", "PhoneNumber", "WebsiteURL"]

  /** With the 10 s budget the loop scrolls at most three times (sleeping 4 s each). */
  lemma ScrollsAtMostThree(view: nat -> GM.ScrollView)
    requires GM.Clocked(view)
    ensures 1 <= GM.Scrolls(view, SCROLL_TIME_DURATION_S) <= 3
  {
    GM.ScrollsIsFirstHalt(view, SCROLL_TIME_DURATION_S);
    GM.ScrollsBound(view, SCROLL_TIME_DURATION_S);
  }

  /** With the end marker never shown and at most 10 s elapsed after each of the
      first two scrolls, the draft stops after the third scroll: its sleeps alone take
      it past 10 s, however long the browser calls between them take. */
  lemma NoMarkerStopsAtThird(view: nat -> GM.ScrollView)
    requires GM.Clocked(view)
    requires forall k: nat :: !view(k).endMarker
    requires view(1).elapsed <= SCROLL_TIME_DURATION_S && view(2).elapsed <= SCROLL_TIME_DURATION_S
    ensures GM.Scrolls(view, SCROLL_TIME_DURATION_S) == 3
  {
    GM.ScrollsIsFirstHalt(view, SCROLL_TIME_DURATION_S);
    assert GM.FirstHalt(view, SCROLL_TIME_DURATION_S, 3) by {
      assert GM.SLEEP_PER_SCROLL_S * 3 <= view(3).elapsed;
    }
  }

  class GoogleMapsParserEngine {
    /** `_entries` */
    var entries: seq<Record>
    const query: string
    const location: string
    const zoom: string
    /** the geocoder's answer for `location`, given */
    const coords: seq<string>
    const searchQuery: string
    const url: string

    constructor (query: string, location: string, coords: seq<string>, zoom: string := GM.DEFAULT_ZOOM)
      ensures entries == []
      ensures this.query == query && this.location == location && this.coords == coords && this.zoom == zoom
      ensures searchQuery == GM.SearchQuery(query, location) && url == GM.SearchUrl(searchQuery, coords, zoom)
    {
      entries := [];
      this.query := query;
      this.location := location;
      this.coords := coords;
      this.zoom := zoom;
      var sq := GM.SearchQuery(query, location);
      searchQuery := sq;
      url := GM.SearchUrl(sq, coords, zoom);
    }

    /** `run` with the 10 s budget: `_entries` becomes the extraction result, or stays
        as it was when a page faults. */
    method Run(view: nat -> GM.ScrollView, render: string -> GM.PlacePage) returns (outcome: Outcome<Error>)
      requires GM.Clocked(view)
      modifies this
      ensures var found := GM.Extracted(view(GM.Scrolls(view, SCROLL_TIME_DURATION_S)).hrefs, render);
        && (found.Success? ==> outcome == Pass && entries == found.value)
        && (found.Failure? ==> outcome == Fail(found.error) && entries == old(entries))
    {
      var scrolls, urls := GM.ScrollUntilDone(view, SCROLL_TIME_DURATION_S);
      GM.ScrollsIsFirstHalt(view, SCROLL_TIME_DURATION_S);
      var found := GM.GetSearchResultsEntries(urls, render);
      match found
      case Failure(e) =>
        outcome := Fail(e);
      case Success(es) =>
        entries := es;
        outcome := Pass;
    }

    /** The inline `save_to_csv`: extension check first, then emptiness, then the writer. */
    method SaveToCsv(filename: string := DEFAULT_FILENAME) returns (r: Result<CsvAppend, Error>)
      ensures r == SaveDecision(filename, FIELD_NAMES, entries)
      ensures r.Success? ==> r.value.rows == entries && entries != []
    {
      if !Text.EndsWith(filename, CSV_EXTENSION) {
        return Failure(BAD_EXTENSION);
      }
      if entries == [] {
        return Failure(EMPTY_ON_SAVE);
      }
      r := Success(CsvAppend(filename, FIELD_NAMES, entries));
    }

    /** The inline `entries` getter. */
    method Entries() returns (r: Result<seq<Record>, Error>)
      ensures r == EntriesView(entries)
      ensures r.Failure? <==> entries == []
      ensures r.Success? ==> r.value == entries
    {
      if entries == [] {
        return Failure(EMPTY_ON_READ);
      }
      r := Success(entries);
    }

    /** The inline `entries` setter: always raises; no `modifies` clause, so nothing changes. */
    method SetEntries(value: seq<Record>) returns (r: Outcome<Error>)
      ensures r == Fail(SET_REFUSED)
    {
      r := Fail(SET_REFUSED);
    }
  }

  /** The usage the draft's docstring describes. Before `run`: the getter fails with
      the "call .run() first" error (`early`), so does the default save (`earlySave`),
      and the setter is refused (`refused`) and changes nothing. After `run`: when the
      extraction faults, the fault is what the caller sees; otherwise the getter
      (`late`) and the default save (`saved`) both see exactly the extracted entries,
      and both fail with the empty-store error when none were found. */
  method Usage(query: string, location: string, coords: seq<string>,
               view: nat -> GM.ScrollView, render: string -> GM.PlacePage)
    returns (early: Result<seq<Record>, Error>, earlySave: Result<CsvAppend, Error>,
             refused: Outcome<Error>, late: Result<seq<Record>, Error>, saved: Result<CsvAppend, Error>)
    requires GM.Clocked(view)
    ensures early == Failure(EMPTY_ON_READ) && earlySave == Failure(EMPTY_ON_SAVE)
    ensures refused == Fail(SET_REFUSED)
    ensures var found := GM.Extracted(view(GM.Scrolls(view, SCROLL_TIME_DURATION_S)).hrefs, render);
      && (found.Failure? ==> late == Failure(found.error) && saved == Failure(found.error))
      && (found.Success? && found.value == [] ==> late == Failure(EMPTY_ON_READ) && saved == Failure(EMPTY_ON_SAVE))
      && (found.Success? && found.value != [] ==>
            late == Success(found.value) && saved == Success(CsvAppend(DEFAULT_FILENAME, FIELD_NAMES, found.value)))
  {
    var engine := new GoogleMapsParserEngine(query, location, coords);
    early := engine.Entries();
    earlySave := engine.SaveToCsv();
    refused := engine.SetEntries([[("Title", "x")]]);
    var outcome := engine.Run(view, render);
    if outcome.Fail? {
      return early, earlySave, refused, Failure(outcome.error), Failure(outcome.error);
    }
    late := engine.Entries();
    saved := engine.SaveToCsv();
  }
}
