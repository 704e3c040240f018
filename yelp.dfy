/** `YelpEngine` (project/apps/yelp/engine.py): the search URL, the
    paginate-until-done discovery loop, the per-business parse and the extraction
    loop. The browser is an oracle: the sequence of result pages the next-page
    button leads through, and what each detail page's selectors find. */
module Yelp {
  import opened Wrappers
  import opened Text
  import opened Records
  import opened Base

  const BASE_URL_HEAD := "https://www.yelp.com/search?find_desc="
  const LOCATION_PARAM := "&find_loc="
  const BASE_URL_TAIL := "%2C+Philippines&start=0"
  const HOST := "https://www.yelp.com"
  const FIELD_NAMES := ["Title", "Address", "PhoneNumber", "Tags"]
  const TAG_SEPARATOR := ","

  // ---------------------------------------------------------------- search URL

  /** `BASE_URL.format(query=query, location=location)`: both substituted verbatim. */
  function SearchUrl(query: string, location: string): string {
    BASE_URL_HEAD + query + LOCATION_PARAM + location + BASE_URL_TAIL
  }

  /** Without '&' in the query or the location, the query string after "find_desc="
      splits on '&' into the query itself, `find_loc=` with the location and the fixed
      ", Philippines" suffix, and `start=0`. */
  lemma SearchUrlParams(query: string, location: string)
    requires '&' !in query && '&' !in location
    ensures SearchUrl(query, location)[..|BASE_URL_HEAD|] == BASE_URL_HEAD
    ensures Split(SearchUrl(query, location)[|BASE_URL_HEAD|..], '&')
      == [query, "find_loc=" + location + "%2C+Philippines", "start=0"]
  {
    var loc := "find_loc=" + location + "%2C+Philippines";
    var parts := [query, loc, "start=0"];
    var after := query + LOCATION_PARAM + location + BASE_URL_TAIL;
    assert SearchUrl(query, location) == BASE_URL_HEAD + after;
    Halves(BASE_URL_HEAD, after);
    ParamLiterals();
    assert after == query + (['&'] + "find_loc=") + location + ("%2C+Philippines" + ['&'] + "start=0");
    Regroup(query, "find_loc=", location, "%2C+Philippines", "start=0");
    assert after == query + ['&'] + (loc + ['&'] + "start=0");
    assert Join(parts[1..], ['&']) == loc + ['&'] + "start=0" by {
      assert parts[1..][1..] == ["start=0"];
    }
    assert Join(parts, ['&']) == query + ['&'] + Join(parts[1..], ['&']);
    assert forall i :: 0 <= i < |parts| ==> '&' !in parts[i];
    SplitJoin(parts, '&');
  }

  /** The URL's query string regrouped around its two '&' separators. */
  lemma Regroup(query: string, key: string, location: string, suffix: string, start: string)
    ensures query + (['&'] + key) + location + (suffix + ['&'] + start)
      == query + ['&'] + ((key + location + suffix) + ['&'] + start)
  {
  }

  /** The query's own '&' regrouped as the first separator of the query string. */
  lemma Reassociate(before: string, rest: string, key: string, location: string, tail: string)
    ensures before + "&" + rest + key + location + tail
      == before + ['&'] + (rest + key + location + tail)
  {
  }

  /** How the fixed pieces of the template are separated by '&'. */
  lemma ParamLiterals()
    ensures LOCATION_PARAM == ['&'] + "find_loc="
    ensures BASE_URL_TAIL == "%2C+Philippines" + ['&'] + "start=0"
    ensures '&' !in "find_loc=" && '&' !in "%2C+Philippines" && '&' !in "start=0"
  {
  }

  /** Nothing is escaped: an '&' in the query cuts the `find_desc` parameter short,
      leaving only the text before it. */
  lemma QueryNotEscaped(before: string, rest: string, location: string)
    requires '&' !in before
    ensures Split(SearchUrl(before + "&" + rest, location)[|BASE_URL_HEAD|..], '&')[0] == before
  {
    var after := before + "&" + rest + LOCATION_PARAM + location + BASE_URL_TAIL;
    assert SearchUrl(before + "&" + rest, location) == BASE_URL_HEAD + after;
    Halves(BASE_URL_HEAD, after);
    Reassociate(before, rest, LOCATION_PARAM, location, BASE_URL_TAIL);
    SplitAtFirst(before, '&', rest + LOCATION_PARAM + location + BASE_URL_TAIL);
  }

  // ---------------------------------------------------------------- discovery

  /** One page of results: the `href` of every `.css-1hqkluu` anchor in DOM order, and
      whether the next-page button is present. */
  datatype ResultsPage = ResultsPage(hrefs: seq<string>, hasNext: bool)

  /** `host + href` for every anchor of a page, in DOM order. */
  function Absolute(hrefs: seq<string>): seq<string> {
    seq(|hrefs|, j requires 0 <= j < |hrefs| => HOST + hrefs[j])
  }

  /** The URLs collected over the given pages: each page's in turn, nothing dropped. */
  function Collected(pages: seq<ResultsPage>): seq<string> {
    if pages == [] then []
    else Collected(pages[..|pages| - 1]) + Absolute(pages[|pages| - 1].hrefs)
  }

  /** Page n is the first without a next-page button. */
  ghost predicate LastPage(pages: seq<ResultsPage>, n: nat) {
    n < |pages| && !pages[n].hasNext && forall i :: 0 <= i < n ==> pages[i].hasNext
  }

  /** Collecting over two runs of pages is collecting over each in turn. */
  lemma {:induction false} CollectedAppend(a: seq<ResultsPage>, b: seq<ResultsPage>)
    ensures Collected(a + b) == Collected(a) + Collected(b)
    decreases |b|
  {
    if b != [] {
      var b' := b[..|b| - 1];
      assert (a + b)[..|a + b| - 1] == a + b';
      CollectedAppend(a, b');
    } else {
      assert a + b == a;
    }
  }

  /** A URL is collected exactly when it is the host followed by an href of one of the
      pages; every collected URL therefore starts with the host. */
  lemma {:induction false} CollectedFromHrefs(pages: seq<ResultsPage>, u: string)
    ensures u in Collected(pages) <==>
      exists i, j :: 0 <= i < |pages| && 0 <= j < |pages[i].hrefs| && u == HOST + pages[i].hrefs[j]
  {
    if pages != [] {
      var init := pages[..|pages| - 1];
      var last := pages[|pages| - 1];
      CollectedFromHrefs(init, u);
      if u in Absolute(last.hrefs) {
        var j :| 0 <= j < |last.hrefs| && Absolute(last.hrefs)[j] == u;
        assert u == HOST + pages[|pages| - 1].hrefs[j];
      }
      if exists i, j :: 0 <= i < |pages| && 0 <= j < |pages[i].hrefs| && u == HOST + pages[i].hrefs[j] {
        var i, j :| 0 <= i < |pages| && 0 <= j < |pages[i].hrefs| && u == HOST + pages[i].hrefs[j];
        if i < |init| {
          assert init[i] == pages[i];
        } else {
          assert Absolute(last.hrefs)[j] == u;
        }
      }
    }
  }

  /** There is no deduplication: the same href on two pages is collected twice. */
  lemma KeepsDuplicates(href: string)
    ensures Collected([ResultsPage([href], true), ResultsPage([href], false)]) == [HOST + href, HOST + href]
  {
    var pages := [ResultsPage([href], true), ResultsPage([href], false)];
    assert Absolute([href]) == [HOST + href];
    assert pages[..1] == [pages[0]];
    assert [pages[0]][..0] == [];
    assert Collected([pages[0]]) == [HOST + href];
  }

  /** `_get_search_results_urls`: on each page append `host + href` for every anchor,
      stop at the first page without a next-page button (its links included), else
      click it and go on. `None` when the given pages run out while a next-page button
      is still shown: the source would keep paginating beyond what is observed. */
  method GetSearchResultsUrls(pages: seq<ResultsPage>) returns (r: Option<seq<string>>)
    ensures r.None? <==> forall i :: 0 <= i < |pages| ==> pages[i].hasNext
    ensures r.Some? ==> exists n :: LastPage(pages, n) && r.value == Collected(pages[..n + 1])
  {
    var urls: seq<string> := [];
    var i := 0;
    assert pages[..0] == [];
    while true
      invariant i <= |pages|
      invariant forall j :: 0 <= j < i ==> pages[j].hasNext
      invariant urls == Collected(pages[..i])
      decreases |pages| - i
    {
      if i == |pages| {
        return None;
      }
      var page := pages[i];
      for k := 0 to |page.hrefs|
        invariant urls == Collected(pages[..i]) + Absolute(page.hrefs[..k])
      {
        assert Absolute(page.hrefs[..k + 1]) == Absolute(page.hrefs[..k]) + [HOST + page.hrefs[k]];
        urls := urls + [HOST + page.hrefs[k]];
      }
      assert page.hrefs[..|page.hrefs|] == page.hrefs;
      assert pages[..i + 1][..i] == pages[..i];
      if !page.hasNext {
        assert LastPage(pages, i);
        return Some(urls);
      }
      i := i + 1;
    }
  }

  // ---------------------------------------------------------------- extraction

  /** What the selectors find on one business page: the `.css-1se8maq` title, the
      `.css-qyp8bo` address, the `.css-djo2w .css-1p9ibgf` phone, and for every tag
      element the text of its first link, if it has one. */
  datatype BizPage = BizPage(title: Option<string>, address: Option<string>, phone: Option<string>,
                             tagLinks: seq<Option<string>>)

  /** `parse_data_with_soup`: title, address and phone are unguarded; the tags are the
      comma-join of every tag link's text. */
  function Parsed(page: BizPage): Result<seq<string>, Error> {
    var title :- TextOf(page.title);
    var address :- TextOf(page.address);
    var phone :- TextOf(page.phone);
    var tags :- Collect(page.tagLinks, TextOf);
    Success([title, address, phone, Join(tags, TAG_SEPARATOR)])
  }

  /** A page yields values exactly when title, address, phone and every tag link are
      found; they are the title, address, phone and the joined tag texts, in that order,
      and a page without tags gets "" (not the "-" of the other engine). */
  lemma ParsedFields(page: BizPage)
    ensures Parsed(page).Success? <==>
      && page.title.Some? && page.address.Some? && page.phone.Some?
      && forall i :: 0 <= i < |page.tagLinks| ==> page.tagLinks[i].Some?
    ensures Parsed(page).Success? ==>
      && |Parsed(page).value| == 4
      && Parsed(page).value[..3] == [page.title.value, page.address.value, page.phone.value]
      && Parsed(page).value[3] == Join(Collect(page.tagLinks, TextOf).value, TAG_SEPARATOR)
      && (page.tagLinks == [] ==> Parsed(page).value[3] == "")
  {
    CollectAll(page.tagLinks, TextOf);
    assert forall i :: 0 <= i < |page.tagLinks| ==> (TextOf(page.tagLinks[i]).Success? <==> page.tagLinks[i].Some?);
  }

  /** The joined tags can be split back into the tag texts when there is at least one
      tag and none contains a comma. */
  lemma TagsRoundTrip(page: BizPage)
    requires Parsed(page).Success? && |page.tagLinks| >= 1
    requires forall i :: 0 <= i < |page.tagLinks| ==> page.tagLinks[i].Some? && ',' !in page.tagLinks[i].value
    ensures Split(Parsed(page).value[3], ',') == seq(|page.tagLinks|, i requires 0 <= i < |page.tagLinks| => page.tagLinks[i].value)
  {
    ParsedFields(page);
    CollectAll(page.tagLinks, TextOf);
    var tags := Collect(page.tagLinks, TextOf).value;
    assert forall i :: 0 <= i < |tags| ==> tags[i] == page.tagLinks[i].value;
    SplitJoin(tags, ',');
  }

  /** A missing title, address or phone is a hard fault: no values for that page. */
  lemma MissingRequiredFaults(page: BizPage)
    requires page.title.None? || page.address.None? || page.phone.None?
    ensures Parsed(page) == Failure(NO_ELEMENT)
  {
  }

  /** The tag loop: the text of each tag element's first link, in DOM order. */
  method CollectTags(tagLinks: seq<Option<string>>) returns (r: Result<seq<string>, Error>)
    ensures r == Collect(tagLinks, TextOf)
  {
    var tags: seq<string> := [];
    for i := 0 to |tagLinks|
      invariant Collect(tagLinks[..i], TextOf) == Success(tags)
    {
      if tagLinks[i].None? {
        CollectAbort(tagLinks, i, TextOf, tags);
        return Failure(NO_ELEMENT);
      }
      CollectStep(tagLinks, i, TextOf, tags);
      tags := tags + [tagLinks[i].value];
    }
    assert tagLinks[..|tagLinks|] == tagLinks;
    r := Success(tags);
  }

  /** `parse_data_with_soup` as the source runs it. */
  method ParseDataWithSoup(page: BizPage) returns (r: Result<seq<string>, Error>)
    ensures r == Parsed(page)
  {
    var data: seq<string> := [];
    if page.title.None? { return Failure(NO_ELEMENT); }
    data := data + [page.title.value];
    if page.address.None? { return Failure(NO_ELEMENT); }
    data := data + [page.address.value];
    if page.phone.None? { return Failure(NO_ELEMENT); }
    data := data + [page.phone.value];
    var tags := CollectTags(page.tagLinks);
    if tags.Failure? { return Failure(tags.error); }
    data := data + [Join(tags.value, TAG_SEPARATOR)];
    assert data == [page.title.value, page.address.value, page.phone.value, Join(tags.value, TAG_SEPARATOR)];
    r := Success(data);
  }

  /** One record per URL: its page's values keyed by FIELD_NAMES. */
  function BizRecord(page: BizPage): Result<Record, Error> {
    RecordOf(FIELD_NAMES, Parsed(page))
  }

  /** `_get_search_results_entries`: visit each URL in order and zip its values with
      FIELD_NAMES; a fault on any page aborts the whole extraction. */
  function Extracted(urls: seq<string>, render: string -> BizPage): Result<seq<Record>, Error> {
    Collect(urls, (u: string) => BizRecord(render(u)))
  }

  /** Extraction succeeds exactly when every page parses; it then gives one record per
      URL, in URL order, whose keys are exactly FIELD_NAMES in order. */
  lemma ExtractedRecords(urls: seq<string>, render: string -> BizPage)
    ensures Extracted(urls, render).Success? <==> forall i :: 0 <= i < |urls| ==> Parsed(render(urls[i])).Success?
    ensures Extracted(urls, render).Success? ==>
      && |Extracted(urls, render).value| == |urls|
      && forall i :: 0 <= i < |urls| ==>
           && Extracted(urls, render).value[i] == Zip(FIELD_NAMES, Parsed(render(urls[i])).value)
           && Keys(Extracted(urls, render).value[i]) == FIELD_NAMES
  {
    var step := (u: string) => BizRecord(render(u));
    CollectAll(urls, step);
    forall i | 0 <= i < |urls| && Parsed(render(urls[i])).Success?
      ensures Keys(Zip(FIELD_NAMES, Parsed(render(urls[i])).value)) == FIELD_NAMES
    {
      ParsedFields(render(urls[i]));
      ZipKeys(FIELD_NAMES, Parsed(render(urls[i])).value);
    }
  }

  /** The extraction loop; `render(url)` stands for `_open_url_and_wait(url, 1.5)`
      followed by `page.content()`. */
  method GetSearchResultsEntries(urls: seq<string>, render: string -> BizPage) returns (r: Result<seq<Record>, Error>)
    ensures r == Extracted(urls, render)
  {
    var step := (u: string) => BizRecord(render(u));
    var entries: seq<Record> := [];
    for i := 0 to |urls|
      invariant Collect(urls[..i], step) == Success(entries)
    {
      var data := ParseDataWithSoup(render(urls[i]));
      if data.Failure? {
        CollectAbort(urls, i, step, entries);
        return Failure(data.error);
      }
      var entry := Zip(FIELD_NAMES, data.value);
      CollectStep(urls, i, step, entries);
      entries := entries + [entry];
    }
    assert urls[..|urls|] == urls;
    r := Success(entries);
  }

  // ---------------------------------------------------------------- the engine

  /** `YelpEngine(BaseEngine, ...)`; the inherited `_entries` lives in `base`. */
  class YelpEngine {
    const base: BaseEngine
    const query: string
    const location: string
    const url: string

    constructor (query: string, location: string)
      ensures fresh(base) && base.entries == [] && base.fieldNames == FIELD_NAMES
      ensures this.query == query && this.location == location && url == SearchUrl(query, location)
    {
      base := new BaseEngine(FIELD_NAMES);
      this.query := query;
      this.location := location;
      url := SearchUrl(query, location);
    }
  }
}
