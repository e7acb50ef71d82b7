/** The Selenium scraper of the docker project (docker-scraping-project/5.5.py): its
    address split with ten building keywords, the detail scrape with its selector
    chains, the return-URL rewrite and the `scrape_restaurant_list` loop that follows
    the next-page button. */
module Docker55 {
  import opened Text
  import opened Address
  import opened Scraping

  // ---------------------------------------------------------------------------------
  // split_address

  /** The keyword alternatives of the building pattern (no GATE here). */
  const BUILDING_KEYWORDS: seq<string> := [
    "ビル", "タワー", "ハイツ", "マンション", "アパート", "ビルディング", "プラザ", "センター",
    "BLDG", "Bldg"
  ]

  const RULES: seq<Pattern> := [KeywordRun(Letters, BUILDING_KEYWORDS)]

  /** `split_address`: the shared split with this one keyword pattern. The columns
      concatenate back to the address without whitespace and hold none; a non-empty
      building holds a keyword and starts at the pattern's leftmost match after the
      city; an empty building means the pattern matches nowhere in the street. */
  function SplitAddress(full: string): (r: Parts)
    ensures full == "" ==> r == EMPTY_PARTS
    ensures Joined(r) == RemoveSpace(full) && PartsNoSpace(r)
    ensures r.building != "" ==> ContainsAny(r.building, BUILDING_KEYWORDS)
                                 && IsLeftmost(RULES[0], r.street + r.building, |r.street|)
    ensures r.building == "" ==> NoMatch(RULES[0], r.street)
  {
    SplitKeywordBuilding(Letters, BUILDING_KEYWORDS, full);
    Split(RULES, full)
  }

  // ---------------------------------------------------------------------------------
  // scrape_restaurant_detail

  /** What the browser finds on a detail page: the text of the element each name, tel
      and address locator finds (None when it raises), the e-mail addresses `re.findall`
      lists, and the URL `get_official_url` reaches ("" when none). */
  datatype DetailPage = DetailPage(
    nameHits: seq<Option<string>>,
    telHits: seq<Option<string>>,
    emails: seq<string>,
    addressHits: seq<Option<string>>,
    officialUrl: string)

  /** The record built from a detail page: the first non-empty stripped name and
      address, the first non-empty sanitised phone number, the first e-mail address,
      the split address, the official URL and its SSL flag, which is false unless the
      URL starts with `https://` (`handshake` stands for the TLS connection). */
  function DetailRecord(p: DetailPage, handshake: string -> bool): (r: Record)
    ensures r.name == FirstNonEmpty(StripHits(p.nameHits))
    ensures AllTelChars(r.tel) && r.tel == FirstTel(p.telHits)
    ensures r.email == (if p.emails == [] then "" else p.emails[0])
    ensures r.prefecture + r.city + r.street + r.building == RemoveSpace(FirstNonEmpty(StripHits(p.addressHits)))
    ensures Parts(r.prefecture, r.city, r.street, r.building) == SplitAddress(FirstNonEmpty(StripHits(p.addressHits)))
    ensures r.url == p.officialUrl
    ensures r.ssl ==> StartsWith(r.url, "https://")
  {
    var parts := Split(RULES, FirstNonEmpty(StripHits(p.addressHits)));
    Record(FirstNonEmpty(StripHits(p.nameHits)), FirstTel(p.telHits),
           if p.emails == [] then "" else p.emails[0],
           parts.prefecture, parts.city, parts.street, parts.building,
           p.officialUrl, CheckSslWithHandshake(p.officialUrl, handshake(p.officialUrl)))
  }

  /** `scrape_restaurant_detail` once the page is loaded. */
  method ScrapeDetail(p: DetailPage, handshake: string -> bool) returns (r: Record)
    ensures r == DetailRecord(p, handshake)
  {
    var name := TakeFirstNonEmpty(StripHits(p.nameHits));
    var tel := PickTel(p.telHits);
    var email := if p.emails == [] then "" else p.emails[0];
    var fullAddress := TakeFirstNonEmpty(StripHits(p.addressHits));
    var parts := SplitAddress(fullAddress);
    var ssl := CheckSslWithHandshake(p.officialUrl, handshake(p.officialUrl));
    r := Record(name, tel, email, parts.prefecture, parts.city, parts.street, parts.building, p.officialUrl, ssl);
  }

  /** The record the detail scrape returns for a URL: None when it raised. */
  function Scraped(pageOf: string -> Option<DetailPage>, handshake: string -> bool): string -> Option<Record> {
    u => if pageOf(u).Some? then Some(DetailRecord(pageOf(u).value, handshake)) else None
  }

  // ---------------------------------------------------------------------------------
  // The return URL

  /** `search_url if '?p=' not in search_url else search_url.split('?')[0]` */
  function ReturnUrl(u: string): (r: string)
    ensures !Contains(u, "?p=") ==> r == u
    ensures Contains(u, "?p=") ==> r == BeforeFirst(u, '?')
    ensures !Contains(r, "?p=")
  {
    if !Contains(u, "?p=") then u
    else
      var r := BeforeFirst(u, '?');
      NoMarkerWithoutQuery(r);
      r
  }

  /** A text without '?' holds no `?p=`. */
  lemma NoMarkerWithoutQuery(r: string)
    requires '?' !in r
    ensures !Contains(r, "?p=")
  {
    forall i | 0 <= i <= |r| - 3 ensures !OccursAt(r, "?p=", i) {
      assert r[i..i + 3][0] == r[i] != '?';
    }
  }

  /** Rewriting the return URL twice gives what rewriting it once gives. */
  lemma ReturnUrlIdempotent(u: string)
    ensures ReturnUrl(ReturnUrl(u)) == ReturnUrl(u)
  {
  }

  // ---------------------------------------------------------------------------------
  // scrape_restaurant_list

  /** What the browser shows for a list URL: the hrefs of the elements each of the four
      link selectors finds ("" for an element whose href could not be read), and the URL
      the next-page button leads to (None when there is no such button). */
  datatype ResultPage = ResultPage(selected: seq<seq<string>>, next: Option<string>)

  predicate GnaviUrl(u: string) {
    u != "" && Contains(u, "gnavi.co.jp")
  }

  /** The elements of the first selector that finds any, or []. */
  function FirstElements(selected: seq<seq<string>>): (elements: seq<string>)
    ensures elements == [] <==> forall k :: 0 <= k < |selected| ==> selected[k] == []
    ensures elements != [] ==> exists k :: 0 <= k < |selected| && elements == selected[k]
                                           && forall m :: 0 <= m < k ==> selected[m] == []
  {
    if selected == [] then []
    else if selected[0] != [] then selected[0]
    else
      var elements := FirstElements(selected[1..]);
      assert forall k :: 1 <= k < |selected| ==> selected[k] == selected[1..][k - 1];
      if elements != [] then
        var k :| 0 <= k < |selected[1..]| && elements == selected[1..][k]
                 && forall m :: 0 <= m < k ==> selected[1..][m] == [];
        assert elements == selected[k + 1];
        elements
      else elements
  }

  /** The selector loop of the list page. */
  method PickElements(selected: seq<seq<string>>) returns (elements: seq<string>)
    ensures elements == FirstElements(selected)
  {
    elements := [];
    var i := 0;
    while i < |selected|
      invariant 0 <= i <= |selected|
      invariant elements == []
      invariant FirstElements(selected) == FirstElements(selected[i..])
    {
      elements := selected[i];
      if elements != [] {
        return;
      }
      assert selected[i..][1..] == selected[i + 1..];
      i := i + 1;
    }
  }

  /** The URLs taken from a list page: of the first `room` elements, those naming
      gnavi.co.jp. A page never contributes more URLs than there is room for. */
  method Candidates(elements: seq<string>, room: nat) returns (urls: seq<string>)
    ensures urls == Filter(elements[..if room < |elements| then room else |elements|], GnaviUrl)
    ensures |urls| <= room
    ensures forall k :: 0 <= k < |urls| ==> GnaviUrl(urls[k])
  {
    var head := elements[..if room < |elements| then room else |elements|];
    urls := KeepGnavi(head);
  }

  /** The filter loop over the elements: the hrefs that are non-empty and name
      gnavi.co.jp, in order. */
  method KeepGnavi(head: seq<string>) returns (urls: seq<string>)
    ensures urls == Filter(head, GnaviUrl)
  {
    urls := [];
    for j := 0 to |head|
      invariant urls == Filter(head[..j], GnaviUrl)
    {
      FilterStep(head, j, GnaviUrl);
      if GnaviUrl(head[j]) {
        urls := urls + [head[j]];
      }
    }
    assert head[..|head|] == head;
  }

  /** What the loop keeps true: at most maxRecords records, each named and scraped from
      a fetched URL; every fetched URL names gnavi.co.jp. */
  predicate Progress(data: seq<Record>, maxRecords: nat, fetched: seq<string>, source: seq<nat>,
                     detail: string -> Option<Record>) {
    && |data| <= maxRecords
    && (forall i :: 0 <= i < |data| ==> data[i].name != "")
    && Sourced(data, fetched, source, detail)
    && (forall k :: 0 <= k < |fetched| ==> GnaviUrl(fetched[k]))
  }

  /** The loop over the URLs of one list page; after each detail page the browser is
      sent to the return URL. Every URL is opened as it is, with no visited set, until
      maxRecords records are held: the URLs opened are the first `stop` of them, all of
      them unless the cap was reached, and the records are what `KeepAll` keeps from
      them with the named-record rule. */
  method ScrapeUrls(urls: seq<string>, maxRecords: nat, pageOf: string -> Option<DetailPage>,
                    handshake: string -> bool, data0: seq<Record>,
                    ghost fetched0: seq<string>, ghost source0: seq<nat>)
    returns (data: seq<Record>, ghost fetched: seq<string>, ghost source: seq<nat>, ghost stop: nat)
    requires Progress(data0, maxRecords, fetched0, source0, Scraped(pageOf, handshake))
    requires forall k :: 0 <= k < |urls| ==> GnaviUrl(urls[k])
    ensures Progress(data, maxRecords, fetched, source, Scraped(pageOf, handshake))
    ensures stop <= |urls| && (stop == |urls| || |data| >= maxRecords)
    ensures fetched == fetched0 + urls[..stop]
    ensures data == KeepAll(data0, urls[..stop], Scraped(pageOf, handshake), Named)
    ensures UnderCap(data0, urls[..stop], Scraped(pageOf, handshake), Named, maxRecords)
  {
    data, fetched, source := data0, fetched0, source0;
    var j := 0;
    while j < |urls|
      invariant j <= |urls|
      invariant Progress(data, maxRecords, fetched, source, Scraped(pageOf, handshake))
      invariant fetched == fetched0 + urls[..j]
      invariant data == KeepAll(data0, urls[..j], Scraped(pageOf, handshake), Named)
      invariant UnderCap(data0, urls[..j], Scraped(pageOf, handshake), Named, maxRecords)
    {
      if |data| >= maxRecords {
        break;
      }
      var data', fetched', source' := VisitOne(urls[j], maxRecords, pageOf, handshake, data, fetched, source);
      KeepStep(data0, urls, j, Scraped(pageOf, handshake), Named, maxRecords, data, data');
      OpenedThrough(fetched0, urls, j);
      data, fetched, source := data', fetched', source';
      j := j + 1;
    }
    stop := j;
  }

  /** One detail page: it joins the fetched URLs, and its record is kept when it has a
      name. */
  method VisitOne(u: string, maxRecords: nat, pageOf: string -> Option<DetailPage>,
                  handshake: string -> bool, data0: seq<Record>,
                  ghost fetched0: seq<string>, ghost source0: seq<nat>)
    returns (data: seq<Record>, ghost fetched: seq<string>, ghost source: seq<nat>)
    requires Progress(data0, maxRecords, fetched0, source0, Scraped(pageOf, handshake)) && |data0| < maxRecords
    requires GnaviUrl(u)
    ensures fetched == fetched0 + [u]
    ensures var found := Scraped(pageOf, handshake)(u);
            data == if found.Some? && Named(data0, found.value) then data0 + [found.value] else data0
    ensures Progress(data, maxRecords, fetched, source, Scraped(pageOf, handshake))
  {
    var found := FetchDetail(u, pageOf, handshake);
    data, fetched, source := KeepFound(u, found, maxRecords, Scraped(pageOf, handshake), data0, fetched0, source0);
  }

  /** Opening a detail page and scraping it. */
  method FetchDetail(u: string, pageOf: string -> Option<DetailPage>, handshake: string -> bool)
    returns (found: Option<Record>)
    ensures found == Scraped(pageOf, handshake)(u)
  {
    found := None;
    var p := pageOf(u);
    if p.Some? {
      var rec := ScrapeDetail(p.value, handshake);
      found := Some(rec);
    }
  }

  /** The URL joins the fetched ones; the record scraped from it, if any, is kept when
      it has a name. */
  method KeepFound(u: string, found: Option<Record>, maxRecords: nat, detail: string -> Option<Record>,
                   data0: seq<Record>, ghost fetched0: seq<string>, ghost source0: seq<nat>)
    returns (data: seq<Record>, ghost fetched: seq<string>, ghost source: seq<nat>)
    requires Progress(data0, maxRecords, fetched0, source0, detail) && |data0| < maxRecords
    requires GnaviUrl(u) && detail(u) == found
    ensures fetched == fetched0 + [u]
    ensures found.Some? && found.value.name != "" ==> data == data0 + [found.value]
    ensures found.None? || found.value.name == "" ==> data == data0
    ensures Progress(data, maxRecords, fetched, source, detail)
  {
    SourcedAfterFetch(data0, fetched0, source0, detail, u);
    data, fetched, source := data0, fetched0 + [u], source0;
    if found.Some? && found.value.name != "" {
      SourcedAfterKeep(data, fetched, source, detail, found.value);
      data, source := data + [found.value], source + [|fetched| - 1];
    }
  }

  /** The detail URLs a list page offers when `room` more records fit: the gnavi hrefs
      among the first `room` elements the selectors find. */
  function Offered(selected: seq<seq<string>>, room: nat): seq<string> {
    var elements := FirstElements(selected);
    Filter(elements[..if room < |elements| then room else |elements|], GnaviUrl)
  }

  /** The body of the list loop for one list page: `stop` when no selector finds an
      element, `anyVisited` when at least one detail page was visited. The URLs opened
      are the first of those the page offers, and the records are what `KeepAll` keeps
      from them. */
  method ScrapeListPage(page: ResultPage, maxRecords: nat, pageOf: string -> Option<DetailPage>,
                        handshake: string -> bool, data0: seq<Record>,
                        ghost fetched0: seq<string>, ghost source0: seq<nat>)
    returns (stop: bool, anyVisited: bool, data: seq<Record>, ghost fetched: seq<string>, ghost source: seq<nat>,
             ghost opens: seq<string>)
    requires Progress(data0, maxRecords, fetched0, source0, Scraped(pageOf, handshake))
    ensures Progress(data, maxRecords, fetched, source, Scraped(pageOf, handshake))
    ensures stop <==> FirstElements(page.selected) == []
    ensures stop ==> !anyVisited && opens == []
    ensures opens <= Offered(page.selected, maxRecords - |data0|)
    ensures anyVisited ==> opens != []
    ensures fetched == fetched0 + opens
    ensures data == KeepAll(data0, opens, Scraped(pageOf, handshake), Named)
    ensures UnderCap(data0, opens, Scraped(pageOf, handshake), Named, maxRecords)
  {
    data, fetched, source := data0, fetched0, source0;
    anyVisited := false;
    opens := [];
    var elements := PickElements(page.selected);
    stop := elements == [];
    if stop {
      return;
    }
    var urls := Candidates(elements, maxRecords - |data|);
    ghost var stopAt;
    data, fetched, source, stopAt := ScrapeUrls(urls, maxRecords, pageOf, handshake, data, fetched, source);
    opens := urls[..stopAt];
    assert urls == Offered(page.selected, maxRecords - |data0|);
    assert opens <= urls;
    anyVisited := urls != [];
  }

  /** Where the next-page button leads after a pass over the list page at `current`:
      the button of that page when none of its URLs was opened (`anyVisited` false), the
      button of the page the return URL shows otherwise. */
  function Reached(searchUrl: string, current: string, anyVisited: bool, show: string -> ResultPage): Option<string> {
    if anyVisited then show(ReturnUrl(searchUrl)).next else show(current).next
  }

  /** One pass of the list loop from the list page at `current`: its detail pages are
      scraped, and unless the loop ends here `next` is where the next-page button of the
      page then shown leads: the list page itself when none of its URLs was opened, the
      return URL of the search otherwise. */
  method ListStep(searchUrl: string, current: string, maxRecords: nat, show: string -> ResultPage,
                  pageOf: string -> Option<DetailPage>, handshake: string -> bool, data0: seq<Record>,
                  ghost fetched0: seq<string>, ghost source0: seq<nat>)
    returns (stop: bool, next: string, anyVisited: bool, data: seq<Record>, ghost fetched: seq<string>,
             ghost source: seq<nat>, ghost opens: seq<string>)
    requires Progress(data0, maxRecords, fetched0, source0, Scraped(pageOf, handshake))
    ensures Progress(data, maxRecords, fetched, source, Scraped(pageOf, handshake))
    ensures anyVisited ==> FirstElements(show(current).selected) != []
    ensures !stop ==> Some(next) == Reached(searchUrl, current, anyVisited, show)
    ensures |data| >= maxRecords ==> stop
    ensures fetched == fetched0 + opens
    ensures data == KeepAll(data0, opens, Scraped(pageOf, handshake), Named)
    ensures UnderCap(data0, opens, Scraped(pageOf, handshake), Named, maxRecords)
    ensures data0 == KeepAll([], fetched0, Scraped(pageOf, handshake), Named)
            && UnderCap([], fetched0, Scraped(pageOf, handshake), Named, maxRecords) ==>
              data == KeepAll([], fetched, Scraped(pageOf, handshake), Named)
              && UnderCap([], fetched, Scraped(pageOf, handshake), Named, maxRecords)
  {
    stop, anyVisited, data, fetched, source, opens := ScrapeListPage(show(current), maxRecords, pageOf, handshake,
                                                                      data0, fetched0, source0);
    KeepAllAppend([], fetched0, opens, Scraped(pageOf, handshake), Named);
    if data0 == KeepAll([], fetched0, Scraped(pageOf, handshake), Named)
       && UnderCap([], fetched0, Scraped(pageOf, handshake), Named, maxRecords) {
      UnderCapAppend([], fetched0, opens, Scraped(pageOf, handshake), Named, maxRecords);
    }
    next := current;
    if stop {
      return;
    }
    if anyVisited {
      next := ReturnUrl(searchUrl);
    }
    if |data| >= maxRecords {
      stop := true;
      return;
    }
    var button := show(next).next;
    if button.None? {
      stop := true;
      return;
    }
    next := button.value;
  }

  /** The list pages read so far, in order, with whether the pass over each opened a
      detail page: the first is the search URL, each later one is where the next-page
      button led after the pass before it, and a pass that opened a page found elements. */
  predicate Listed(searchUrl: string, show: string -> ResultPage, listed: seq<string>, visits: seq<bool>) {
    && |visits| == |listed|
    && (listed != [] ==> listed[0] == searchUrl)
    && (forall i :: 1 <= i < |listed| ==> Some(listed[i]) == Reached(searchUrl, listed[i - 1], visits[i - 1], show))
    && (forall i :: 0 <= i < |listed| && visits[i] ==> FirstElements(show(listed[i]).selected) != [])
  }

  /** Reading one more list page, the one the last pass led to, keeps the record of the
      pages read. */
  lemma ListedOn(searchUrl: string, show: string -> ResultPage, listed: seq<string>, visits: seq<bool>,
                 current: string, visited: bool)
    requires Listed(searchUrl, show, listed, visits)
    requires listed == [] ==> current == searchUrl
    requires listed != [] ==> Some(current) == Reached(searchUrl, listed[|listed| - 1], visits[|visits| - 1], show)
    requires visited ==> FirstElements(show(current).selected) != []
    ensures Listed(searchUrl, show, listed + [current], visits + [visited])
  {
  }

  /** `scrape_restaurant_list`. `show` is what the browser displays for a URL and
      `pageOf` the detail page of a URL (None when its scrape raised). The ghost `listed`
      holds the list pages read, in order, and `visits` whether the pass over each one
      opened a detail page; at most `fuel` pages are read. Each one after the first is
      reached by the next-page button of the page the browser shows at that moment: the
      previous list page when none of its URLs was opened, and the return URL of the
      search otherwise. */
  method ScrapeRestaurantList(searchUrl: string, maxRecords: nat, fuel: nat,
                              show: string -> ResultPage, pageOf: string -> Option<DetailPage>,
                              handshake: string -> bool)
    returns (data: seq<Record>, ghost listed: seq<string>, ghost visits: seq<bool>, ghost fetched: seq<string>,
             ghost source: seq<nat>)
    ensures |listed| <= fuel
    ensures Listed(searchUrl, show, listed, visits)
    ensures |data| <= maxRecords
    ensures forall i :: 0 <= i < |data| ==> data[i].name != ""
    ensures forall k :: 0 <= k < |fetched| ==> GnaviUrl(fetched[k])
    ensures Sourced(data, fetched, source, Scraped(pageOf, handshake))
    ensures data == KeepAll([], fetched, Scraped(pageOf, handshake), Named)
    ensures UnderCap([], fetched, Scraped(pageOf, handshake), Named, maxRecords)
  {
    data, listed, visits, fetched, source := [], [], [], [], [];
    var current := searchUrl;
    var shown := 0;
    while |data| < maxRecords && shown < fuel
      invariant shown == |listed| <= fuel
      invariant Listed(searchUrl, show, listed, visits)
      invariant listed == [] ==> current == searchUrl
      invariant listed != [] ==> Some(current) == Reached(searchUrl, listed[|listed| - 1], visits[|visits| - 1], show)
      invariant Progress(data, maxRecords, fetched, source, Scraped(pageOf, handshake))
      invariant data == KeepAll([], fetched, Scraped(pageOf, handshake), Named)
      invariant UnderCap([], fetched, Scraped(pageOf, handshake), Named, maxRecords)
      decreases fuel - shown
    {
      var stop, next, anyVisited;
      ghost var opens;
      stop, next, anyVisited, data, fetched, source, opens := ListStep(searchUrl, current, maxRecords, show, pageOf,
                                                                       handshake, data, fetched, source);
      ListedOn(searchUrl, show, listed, visits, current, anyVisited);
      listed, visits, shown := listed + [current], visits + [anyVisited], shown + 1;
      if stop {
        break;
      }
      current := next;
    }
  }

  /** The loop does not walk the list: every page reached right after a pass that
      opened a detail page is the same one, the page the next-page button of the return
      URL leads to (page 2 of the search), so the loop reads that page again and again
      until the cap or `fuel` ends it. */
  lemma RereadsAfterVisit(searchUrl: string, show: string -> ResultPage, listed: seq<string>, visits: seq<bool>)
    requires Listed(searchUrl, show, listed, visits)
    ensures forall i, j :: 1 <= i < |listed| && 1 <= j < |listed| && visits[i - 1] && visits[j - 1] ==>
              listed[i] == listed[j] && Some(listed[i]) == show(ReturnUrl(searchUrl)).next
  {
  }
}
