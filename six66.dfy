/** The requests/BeautifulSoup scraper of exercise 6.6 (6.6.py). Its `split_address` is
    the one of scraper.py (same pattern, same keywords), so `Scraper.SplitAddress`
    models it; this module models its detail scrape (selector chains, phone sanitiser,
    empty official URL) and its `scrape_restaurant_list`, which keeps every named record
    and has no visited set. */
module Six66 {
  import opened Text
  import opened Address
  import opened Scraping
  import Scraper

  // ---------------------------------------------------------------------------------
  // scrape_restaurant_detail

  /** What the selectors of a detail page find: the text of the first element each
      name, tel and address selector matches (None when it matches nothing), and the
      e-mail addresses `re.findall` lists. */
  datatype DetailPage = DetailPage(
    nameHits: seq<Option<string>>,
    telHits: seq<Option<string>>,
    emails: seq<string>,
    addressHits: seq<Option<string>>)

  /** The record the detail scrape builds from a page: the first name and address any
      selector finds, stripped; the first non-empty sanitised phone number; the first
      e-mail address; the split address; no official URL, so no SSL. `handshake` stands
      for the TLS connection `check_ssl` would open. */
  function DetailRecord(p: DetailPage, handshake: string -> bool): (r: Record)
    ensures r.url == "" && !r.ssl
    ensures r.name == Strip(FirstFound(p.nameHits))
    ensures AllTelChars(r.tel) && r.tel == FirstTel(p.telHits)
    ensures r.email == (if p.emails == [] then "" else p.emails[0])
    ensures r.prefecture + r.city + r.street + r.building == RemoveSpace(Strip(FirstFound(p.addressHits)))
    ensures Parts(r.prefecture, r.city, r.street, r.building) == Scraper.SplitAddress(Strip(FirstFound(p.addressHits)))
  {
    var parts := Scraper.SplitAddress(Strip(FirstFound(p.addressHits)));
    Record(Strip(FirstFound(p.nameHits)), FirstTel(p.telHits),
           if p.emails == [] then "" else p.emails[0],
           parts.prefecture, parts.city, parts.street, parts.building,
           "", CheckSslWithHandshake("", handshake("")))
  }

  /** `scrape_restaurant_detail` once the page is parsed: three selector loops, the
      address split and the SSL check of the empty official URL. */
  method ScrapeDetail(p: DetailPage, handshake: string -> bool) returns (r: Record)
    ensures r == DetailRecord(p, handshake)
  {
    var name := TakeFirstFound(p.nameHits);
    name := Strip(name);
    var tel := PickTel(p.telHits);
    var email := if p.emails == [] then "" else p.emails[0];
    var fullAddress := TakeFirstFound(p.addressHits);
    fullAddress := Strip(fullAddress);
    var parts := Scraper.SplitAddress(fullAddress);
    var officialUrl := "";
    EmptyUrlNotSsl(handshake(officialUrl));
    var ssl := CheckSslWithHandshake(officialUrl, handshake(officialUrl));
    r := Record(name, tel, email, parts.prefecture, parts.city, parts.street, parts.building, officialUrl, ssl);
  }

  // ---------------------------------------------------------------------------------
  // scrape_restaurant_list

  const MAX_PAGES := 10

  /** What a search page offers: the hrefs of the elements each of the three link
      selectors finds ("" for an element without href), and the hrefs of all anchors. */
  datatype ListingPage = ListingPage(selected: seq<seq<string>>, hrefs: seq<string>)

  predicate RestaurantPath(h: string) {
    Contains(h, "/restaurant/")
  }

  /** The links the loop walks: the elements of the first selector that finds any; when
      none does, every anchor whose href holds `/restaurant/`. */
  function PageLinks(selected: seq<seq<string>>, hrefs: seq<string>): (links: seq<string>)
    ensures (exists k :: 0 <= k < |selected| && selected[k] != []) ==>
              exists k :: 0 <= k < |selected| && links == selected[k] != []
                          && forall m :: 0 <= m < k ==> selected[m] == []
    ensures (forall k :: 0 <= k < |selected| ==> selected[k] == []) ==> links == Filter(hrefs, RestaurantPath)
  {
    if selected == [] then Filter(hrefs, RestaurantPath)
    else if selected[0] != [] then selected[0]
    else
      var links := PageLinks(selected[1..], hrefs);
      assert forall k :: 1 <= k < |selected| ==> selected[k] == selected[1..][k - 1];
      if exists k :: 0 <= k < |selected| && selected[k] != [] then
        var k :| 0 <= k < |selected[1..]| && links == selected[1..][k] != []
                 && forall m :: 0 <= m < k ==> selected[1..][m] == [];
        assert links == selected[k + 1];
        links
      else links
  }

  /** The selector loop of the listing step and its fallback. */
  method PickLinks(page: ListingPage) returns (links: seq<string>)
    ensures links == PageLinks(page.selected, page.hrefs)
  {
    links := [];
    var i := 0;
    while i < |page.selected|
      invariant 0 <= i <= |page.selected|
      invariant links == []
      invariant PageLinks(page.selected, page.hrefs) == PageLinks(page.selected[i..], page.hrefs)
    {
      if page.selected[i] != [] {
        links := page.selected[i];
        return;
      }
      assert page.selected[i..][1..] == page.selected[i + 1..];
      i := i + 1;
    }
    links := KeepRestaurantPaths(page.hrefs);
  }

  /** The fallback loop: every href holding `/restaurant/`, in order. */
  method KeepRestaurantPaths(hrefs: seq<string>) returns (links: seq<string>)
    ensures links == Filter(hrefs, RestaurantPath)
  {
    links := [];
    for j := 0 to |hrefs|
      invariant links == Filter(hrefs[..j], RestaurantPath)
    {
      FilterStep(hrefs, j, RestaurantPath);
      if Contains(hrefs[j], "/restaurant/") {
        links := links + [hrefs[j]];
      }
    }
    assert hrefs[..|hrefs|] == hrefs;
  }

  /** The record the detail scrape returns for a URL: None when opening or parsing the
      page raised. */
  function Scraped(pageOf: string -> Option<DetailPage>, handshake: string -> bool): string -> Option<Record> {
    u => if pageOf(u).Some? then Some(DetailRecord(pageOf(u).value, handshake)) else None
  }

  /** What the loop keeps true: at most maxRecords records, each named, without
      official URL or SSL, each built from a fetched page; every fetched URL names
      gnavi.co.jp. */
  predicate Progress(data: seq<Record>, maxRecords: nat, fetched: seq<string>, source: seq<nat>,
                     detail: string -> Option<Record>) {
    && |data| <= maxRecords
    && (forall i :: 0 <= i < |data| ==> data[i].name != "" && data[i].url == "" && !data[i].ssl)
    && Sourced(data, fetched, source, detail)
    && (forall k :: 0 <= k < |fetched| ==> Contains(fetched[k], "gnavi.co.jp"))
  }

  /** The links of a search page the loop walks; none when its request raised. */
  function LinksOf(listing: string -> Option<ListingPage>): string -> seq<string> {
    u => if listing(u).Some? then PageLinks(listing(u).value.selected, listing(u).value.hrefs) else []
  }

  /** The inner loop over the links of one search page. It opens, in order, the absolute
      URL of each link that names gnavi.co.jp, with no visited set, until maxRecords
      records are held: the URLs `added` to the fetched ones are what `Opened` lists for
      the first `stop` links, where `stop` covers all the links unless the cap was
      reached, and the records are what `KeepAll` keeps from them with the named-record
      rule. The ghost `seen` only accumulates the opened URLs. */
  method ScrapeLinks(links: seq<string>, maxRecords: nat, join: string -> string,
                     pageOf: string -> Option<DetailPage>, handshake: string -> bool,
                     data0: seq<Record>, ghost fetched0: seq<string>, ghost source0: seq<nat>,
                     ghost seen0: set<string>)
    returns (data: seq<Record>, ghost fetched: seq<string>, ghost source: seq<nat>, ghost seen: set<string>,
             ghost added: seq<string>, ghost stop: nat)
    requires Progress(data0, maxRecords, fetched0, source0, Scraped(pageOf, handshake))
    ensures Progress(data, maxRecords, fetched, source, Scraped(pageOf, handshake))
    ensures fetched == fetched0 + added
    ensures stop <= |links| && (stop == |links| || |data| >= maxRecords)
    ensures added == Opened(links[..stop], Scraper.AbsoluteIn(join), Scraper.GnaviTarget, false, seen0)
    ensures data == KeepAll(data0, added, Scraped(pageOf, handshake), Named)
    ensures UnderCap(data0, added, Scraped(pageOf, handshake), Named, maxRecords)
    ensures seen == seen0 + SetOf(added)
  {
    data, fetched, source, seen, added := data0, fetched0, source0, seen0, [];
    WalkStart(links, Scraper.AbsoluteIn(join), Scraper.GnaviTarget, false, seen0, data0, Scraped(pageOf, handshake), Named, maxRecords);
    var j := 0;
    while j < |links|
      invariant Progress(data, maxRecords, fetched, source, Scraped(pageOf, handshake))
      invariant fetched == fetched0 + added
      invariant Walked(links, j, Scraper.AbsoluteIn(join), Scraper.GnaviTarget, false, seen0, data0, Scraped(pageOf, handshake), Named,
                       maxRecords, data, seen, added)
    {
      if |data| >= maxRecords {
        break;
      }
      var data', fetched', source', seen', added' := WalkLink(links[j], maxRecords, join, pageOf, handshake,
                                                               data, fetched, source, seen, added, fetched0);
      WalkOn(links, j, Scraper.AbsoluteIn(join), Scraper.GnaviTarget, false, seen0, data0, Scraped(pageOf, handshake), Named,
             maxRecords, data, seen, added, data', seen', added');
      data, fetched, source, seen, added := data', fetched', source', seen', added';
      j := j + 1;
    }
    stop := j;
  }

  /** One link of the inner loop, below the cap: its absolute URL is opened when it names
      gnavi.co.jp, and the record scraped from it is kept when it has a name. */
  method WalkLink(h: string, maxRecords: nat, join: string -> string,
                  pageOf: string -> Option<DetailPage>, handshake: string -> bool,
                  data0: seq<Record>, ghost fetched0: seq<string>, ghost source0: seq<nat>,
                  ghost seen0: set<string>, ghost added0: seq<string>, ghost start: seq<string>)
    returns (data: seq<Record>, ghost fetched: seq<string>, ghost source: seq<nat>, ghost seen: set<string>,
             ghost added: seq<string>)
    requires Progress(data0, maxRecords, fetched0, source0, Scraped(pageOf, handshake)) && |data0| < maxRecords
    requires fetched0 == start + added0
    ensures Progress(data, maxRecords, fetched, source, Scraped(pageOf, handshake))
    ensures StepOf(h, Scraper.AbsoluteIn(join), Scraper.GnaviTarget, false, Scraped(pageOf, handshake), Named,
                   data0, seen0, added0, data, seen, added)
    ensures fetched == start + added
  {
    data, fetched, source, seen, added := data0, fetched0, source0, seen0, added0;
    var u := Scraper.Absolute(h, join);
    if u == "" || !Contains(u, "gnavi.co.jp") {
      return;
    }
    data, fetched, source := VisitLink(u, maxRecords, pageOf, handshake, data, fetched, source);
    seen, added := seen + {u}, added + [u];
    assert fetched == start + added;
  }

  /** One detail page of a search page: it joins the fetched URLs, and its record is
      kept when it has a name. */
  method VisitLink(u: string, maxRecords: nat,
                   pageOf: string -> Option<DetailPage>, handshake: string -> bool,
                   data0: seq<Record>, ghost fetched0: seq<string>, ghost source0: seq<nat>)
    returns (data: seq<Record>, ghost fetched: seq<string>, ghost source: seq<nat>)
    requires Progress(data0, maxRecords, fetched0, source0, Scraped(pageOf, handshake)) && |data0| < maxRecords
    requires Contains(u, "gnavi.co.jp")
    ensures fetched == fetched0 + [u]
    ensures var found := Scraped(pageOf, handshake)(u);
            data == if found.Some? && Named(data0, found.value) then data0 + [found.value] else data0
    ensures Progress(data, maxRecords, fetched, source, Scraped(pageOf, handshake))
  {
    var found := FetchDetail(u, pageOf, handshake);
    data, fetched, source := KeepFound(u, found, maxRecords, Scraped(pageOf, handshake), data0, fetched0, source0);
  }

  /** Opening a detail page and parsing it. */
  method FetchDetail(u: string, pageOf: string -> Option<DetailPage>, handshake: string -> bool)
    returns (found: Option<Record>)
    ensures found == Scraped(pageOf, handshake)(u)
    ensures found.Some? ==> found.value.url == "" && !found.value.ssl
  {
    found := None;
    var p := pageOf(u);
    if p.Some? {
      var rec := ScrapeDetail(p.value, handshake);
      found := Some(rec);
    }
  }

  /** The URL joins the fetched ones; the record parsed from it, if any, is kept when it
      has a name. */
  method KeepFound(u: string, found: Option<Record>, maxRecords: nat, detail: string -> Option<Record>,
                   data0: seq<Record>, ghost fetched0: seq<string>, ghost source0: seq<nat>)
    returns (data: seq<Record>, ghost fetched: seq<string>, ghost source: seq<nat>)
    requires Progress(data0, maxRecords, fetched0, source0, detail) && |data0| < maxRecords
    requires Contains(u, "gnavi.co.jp") && detail(u) == found
    requires found.Some? ==> found.value.url == "" && !found.value.ssl
    ensures fetched == fetched0 + [u]
    ensures found.Some? && found.value.name != "" ==> data == data0 + [found.value]
    ensures found.None? || found.value.name == "" ==> data == data0
    ensures Progress(data, maxRecords, fetched, source, detail)
  {
    SourcedAfterFetch(data0, fetched0, source0, detail, u);
    data, fetched, source := data0, fetched0 + [u], source0;
    if found.Some? && found.value.name != "" {
      SourcedAfterKeep(data, fetched, source, detail, found.value);
      data, source := data + [found.value], source + [|fetched| - 1];
    }
  }

  /** `scrape_restaurant_list`. `listing` gives what a search page offers (None when
      the request raised), `join` is `urljoin` on the site root, `pageOf` the parsed
      detail page of a URL (None when its scrape raised). The ghost `requested` lists
      the search pages requested, `fetched` the detail pages opened; record i is the
      record scraped from `fetched[source[i]]`. Pages are requested while fewer than
      maxRecords records are held, up to MAX_PAGES, until a page fails or yields no
      link. The detail pages opened are what the first `examined` links of all the
      requested pages open, where `examined` covers all of them unless the cap was
      reached; with no visited set a URL may be opened more than once. The records are
      those the named-record rule keeps from them. */
  method ScrapeRestaurantList(base: string, maxRecords: nat,
                              listing: string -> Option<ListingPage>, join: string -> string,
                              pageOf: string -> Option<DetailPage>, handshake: string -> bool)
    returns (data: seq<Record>, ghost requested: seq<string>, ghost fetched: seq<string>,
             ghost source: seq<nat>, ghost examined: nat)
    ensures |requested| <= MAX_PAGES
    ensures forall i :: 0 <= i < |requested| ==> requested[i] == PageUrl(base, i + 1)
    ensures forall i :: 0 <= i < |requested| - 1 ==> LinksOf(listing)(requested[i]) != []
    ensures |requested| < MAX_PAGES && |data| < maxRecords ==>
              |requested| > 0 && LinksOf(listing)(requested[|requested| - 1]) == []
    ensures Crawled(AllLinks(requested, LinksOf(listing)), Scraper.AbsoluteIn(join), Scraper.GnaviTarget, false,
                    Scraped(pageOf, handshake), Named, maxRecords, data, SetOf(fetched), fetched, examined)
    ensures |data| <= maxRecords
    ensures forall i :: 0 <= i < |data| ==> data[i].name != "" && data[i].url == "" && !data[i].ssl
    ensures forall k :: 0 <= k < |fetched| ==> Contains(fetched[k], "gnavi.co.jp")
    ensures Sourced(data, fetched, source, Scraped(pageOf, handshake))
  {
    ghost var linked, seen, all;
    data, requested, linked, fetched, source, seen, all, examined :=
      ListPages(base, maxRecords, listing, join, pageOf, handshake);
    ScanEnds(base, maxRecords, listing, join, pageOf, handshake, requested, linked, data, fetched, source,
             seen, all, examined);
  }

  /** The page loop of `scrape_restaurant_list`: search pages are requested from the
      first on until the cap, the last page or a page without links; every page in
      `linked` had links. */
  method ListPages(base: string, maxRecords: nat, listing: string -> Option<ListingPage>,
                   join: string -> string, pageOf: string -> Option<DetailPage>, handshake: string -> bool)
    returns (data: seq<Record>, ghost requested: seq<string>, ghost linked: seq<string>,
             ghost fetched: seq<string>, ghost source: seq<nat>, ghost seen: set<string>,
             ghost all: seq<string>, ghost examined: nat)
    ensures Stopped(base, maxRecords, listing, join, pageOf, handshake, requested, linked, data, fetched,
                    source, seen, all, examined)
  {
    data, requested, fetched, source, seen, all, examined := [], [], [], [], {}, [], 0;
    CrawlStart(Scraper.AbsoluteIn(join), Scraper.GnaviTarget, false, Scraped(pageOf, handshake), Named, maxRecords);
    var page := 1;
    while |data| < maxRecords && page <= MAX_PAGES
      invariant 1 <= page <= MAX_PAGES + 1 && |requested| == page - 1
      invariant EachHasLinks(requested, LinksOf(listing))
      invariant Scanned(base, maxRecords, listing, join, pageOf, handshake, requested, data, fetched, source,
                        seen, all, examined)
      decreases MAX_PAGES + 1 - page
    {
      ghost var before := requested;
      var more;
      more, data, requested, fetched, source, seen, all, examined :=
        ListPage(base, page, maxRecords, listing, join, pageOf, handshake, data, requested, fetched, source,
                 seen, all, examined);
      if !more {
        // the loop is left, and nothing but the return follows it
        linked := before;
        return;
      }
      page := page + 1;
    }
    linked := requested;
  }

  /** What `scrape_restaurant_list` has done after requesting the search pages
      `requested`: they are the pages from the first on, and the crawl has examined
      their links. */
  ghost predicate Scanned(base: string, maxRecords: nat, listing: string -> Option<ListingPage>,
                          join: string -> string, pageOf: string -> Option<DetailPage>,
                          handshake: string -> bool, requested: seq<string>, data: seq<Record>,
                          fetched: seq<string>, source: seq<nat>, seen: set<string>, all: seq<string>,
                          examined: nat) {
    && requested == Pages(base, |requested|)
    && Progress(data, maxRecords, fetched, source, Scraped(pageOf, handshake))
    && all == AllLinks(requested, LinksOf(listing))
    && Crawled(all, Scraper.AbsoluteIn(join), Scraper.GnaviTarget, false, Scraped(pageOf, handshake), Named,
               maxRecords, data, seen, fetched, examined)
  }

  /** One turn of the page loop of `scrape_restaurant_list`: search page `page`, the one
      after those requested so far, is requested and scraped; `more` tells whether it
      had links. */
  method ListPage(base: string, page: nat, maxRecords: nat, listing: string -> Option<ListingPage>,
                  join: string -> string, pageOf: string -> Option<DetailPage>, handshake: string -> bool,
                  data0: seq<Record>, ghost requested0: seq<string>, ghost fetched0: seq<string>,
                  ghost source0: seq<nat>, ghost seen0: set<string>, ghost all0: seq<string>,
                  ghost examined0: nat)
    returns (more: bool, data: seq<Record>, ghost requested: seq<string>, ghost fetched: seq<string>,
             ghost source: seq<nat>, ghost seen: set<string>, ghost all: seq<string>, ghost examined: nat)
    requires page == |requested0| + 1 && |data0| < maxRecords
    requires EachHasLinks(requested0, LinksOf(listing))
    requires Scanned(base, maxRecords, listing, join, pageOf, handshake, requested0, data0, fetched0, source0,
                     seen0, all0, examined0)
    ensures requested == requested0 + [PageUrl(base, page)]
    ensures more <==> LinksOf(listing)(PageUrl(base, page)) != []
    ensures more ==> EachHasLinks(requested, LinksOf(listing))
    ensures Scanned(base, maxRecords, listing, join, pageOf, handshake, requested, data, fetched, source,
                    seen, all, examined)
  {
    var listUrl := PageUrl(base, page);
    requested := requested0 + [listUrl];
    assert LinksOf(listing)(listUrl) != [] ==> EachHasLinks(requested, LinksOf(listing)) by {
      if LinksOf(listing)(listUrl) != [] {
        EachHasLinksStep(requested0, listUrl, LinksOf(listing));
      }
    }
    data, fetched, source, seen, all, examined, more :=
      ScrapePage(listUrl, maxRecords, listing, join, pageOf, handshake, data0, fetched0, source0, seen0, all0,
                 examined0);
    ScannedStep(base, page, maxRecords, listing, join, pageOf, handshake, requested0, all0, data, fetched,
                source, seen, all, examined);
  }

  /** The page after those requested extends the pages requested, and its links the
      links examined, so a scraped page keeps `Scanned`. */
  lemma ScannedStep(base: string, page: nat, maxRecords: nat, listing: string -> Option<ListingPage>,
                    join: string -> string, pageOf: string -> Option<DetailPage>, handshake: string -> bool,
                    requested0: seq<string>, all0: seq<string>, data: seq<Record>, fetched: seq<string>,
                    source: seq<nat>, seen: set<string>, all: seq<string>, examined: nat)
    requires page == |requested0| + 1
    requires requested0 == Pages(base, |requested0|) && all0 == AllLinks(requested0, LinksOf(listing))
    requires Progress(data, maxRecords, fetched, source, Scraped(pageOf, handshake))
    requires all == all0 + LinksOf(listing)(PageUrl(base, page))
    requires Crawled(all, Scraper.AbsoluteIn(join), Scraper.GnaviTarget, false, Scraped(pageOf, handshake), Named,
                     maxRecords, data, seen, fetched, examined)
    ensures Scanned(base, maxRecords, listing, join, pageOf, handshake, requested0 + [PageUrl(base, page)], data,
                    fetched, source, seen, all, examined)
  {
    AllLinksStep(requested0, PageUrl(base, page), LinksOf(listing));
  }

  /** How the page loop of `scrape_restaurant_list` has ended: every page in `linked`
      had links, and either they are all the pages requested and the loop stopped at the
      cap or after the last page, or the last one requested had none. */
  ghost predicate Stopped(base: string, maxRecords: nat, listing: string -> Option<ListingPage>,
                          join: string -> string, pageOf: string -> Option<DetailPage>,
                          handshake: string -> bool, requested: seq<string>, linked: seq<string>,
                          data: seq<Record>, fetched: seq<string>, source: seq<nat>, seen: set<string>,
                          all: seq<string>, examined: nat) {
    && Scanned(base, maxRecords, listing, join, pageOf, handshake, requested, data, fetched, source,
               seen, all, examined)
    && |requested| <= MAX_PAGES && EachHasLinks(linked, LinksOf(listing))
    && (|| (requested == linked && (|requested| == MAX_PAGES || |data| >= maxRecords))
        || (|requested| > 0 && requested == linked + [PageUrl(base, |requested|)]
            && LinksOf(listing)(PageUrl(base, |requested|)) == []))
  }

  /** Where the page loop of `scrape_restaurant_list` has stopped, what the function
      returns keeps every promise of `scrape_restaurant_list`. */
  lemma ScanEnds(base: string, maxRecords: nat, listing: string -> Option<ListingPage>,
                 join: string -> string, pageOf: string -> Option<DetailPage>, handshake: string -> bool,
                 requested: seq<string>, linked: seq<string>, data: seq<Record>, fetched: seq<string>,
                 source: seq<nat>, seen: set<string>, all: seq<string>, examined: nat)
    requires Stopped(base, maxRecords, listing, join, pageOf, handshake, requested, linked, data, fetched,
                     source, seen, all, examined)
    ensures forall i :: 0 <= i < |requested| ==> requested[i] == PageUrl(base, i + 1)
    ensures forall i :: 0 <= i < |requested| - 1 ==> LinksOf(listing)(requested[i]) != []
    ensures |requested| < MAX_PAGES && |data| < maxRecords ==>
              |requested| > 0 && LinksOf(listing)(requested[|requested| - 1]) == []
    ensures Crawled(AllLinks(requested, LinksOf(listing)), Scraper.AbsoluteIn(join), Scraper.GnaviTarget, false,
                    Scraped(pageOf, handshake), Named, maxRecords, data, SetOf(fetched), fetched, examined)
    ensures |data| <= maxRecords
    ensures forall i :: 0 <= i < |data| ==> data[i].name != "" && data[i].url == "" && !data[i].ssl
    ensures forall k :: 0 <= k < |fetched| ==> Contains(fetched[k], "gnavi.co.jp")
    ensures Sourced(data, fetched, source, Scraped(pageOf, handshake))
  {
    PagesAt(base, requested);
    EachHasLinksAt(linked, LinksOf(listing));
  }

  /** One search page of `scrape_restaurant_list`, requested below the cap: its links
      are picked and, when there are any (`more`), the inner loop runs over them; the
      crawl has then also examined this page's links. */
  method ScrapePage(listUrl: string, maxRecords: nat, listing: string -> Option<ListingPage>,
                    join: string -> string, pageOf: string -> Option<DetailPage>, handshake: string -> bool,
                    data0: seq<Record>, ghost fetched0: seq<string>, ghost source0: seq<nat>,
                    ghost seen0: set<string>, ghost all0: seq<string>, ghost examined0: nat)
    returns (data: seq<Record>, ghost fetched: seq<string>, ghost source: seq<nat>, ghost seen: set<string>,
             ghost all: seq<string>, ghost examined: nat, more: bool)
    requires Progress(data0, maxRecords, fetched0, source0, Scraped(pageOf, handshake)) && |data0| < maxRecords
    requires Crawled(all0, Scraper.AbsoluteIn(join), Scraper.GnaviTarget, false, Scraped(pageOf, handshake), Named,
                     maxRecords, data0, seen0, fetched0, examined0)
    ensures Progress(data, maxRecords, fetched, source, Scraped(pageOf, handshake))
    ensures all == all0 + LinksOf(listing)(listUrl)
    ensures Crawled(all, Scraper.AbsoluteIn(join), Scraper.GnaviTarget, false, Scraped(pageOf, handshake), Named,
                    maxRecords, data, seen, fetched, examined)
    ensures more <==> LinksOf(listing)(listUrl) != []
  {
    data, fetched, source, seen, examined := data0, fetched0, source0, seen0, examined0;
    all := all0 + LinksOf(listing)(listUrl);
    var offered := listing(listUrl);
    if offered.None? {
      CrawlEmpty(all0, all, Scraper.AbsoluteIn(join), Scraper.GnaviTarget, false, Scraped(pageOf, handshake), Named,
                 maxRecords, data, seen, fetched, examined);
      return data, fetched, source, seen, all, examined, false;
    }
    var links := PickLinks(offered.value);
    assert LinksOf(listing)(listUrl) == links;
    if links == [] {
      CrawlEmpty(all0, all, Scraper.AbsoluteIn(join), Scraper.GnaviTarget, false, Scraped(pageOf, handshake), Named,
                 maxRecords, data, seen, fetched, examined);
      return data, fetched, source, seen, all, examined, false;
    }
    ghost var added, stop := [], 0;
    data, fetched, source, seen, added, stop := ScrapeLinks(links, maxRecords, join, pageOf, handshake,
                                                            data0, fetched0, source0, seen0);
    examined := |all0| + stop;
    CrawlOn(all0, links, all, Scraper.AbsoluteIn(join), Scraper.GnaviTarget, false, Scraped(pageOf, handshake), Named,
            maxRecords, data0, seen0, fetched0, examined0, stop, added, data, seen, fetched, examined);
    more := true;
  }
}
