/** The MySQL variant of exercise 2-2 (2-2.py, the first of the two copies the file
    holds): its address split with four building keywords, the official-URL pick of
    `scrape_detail`, the page URL and the `scrape_list` accumulator. */
module Mysql22 {
  import opened Text
  import opened Address
  import opened Scraping

  // ---------------------------------------------------------------------------------
  // split_address

  const BUILDING_KEYWORDS: seq<string> := ["ビル", "タワー", "ハイツ", "マンション"]

  /** `[ぁ-んァ-ヶー一-龠a-zA-Z]+(?:ビル|タワー|ハイツ|マンション)[^0-9]*[0-9]*[階F号]?.*?$` */
  const RULES: seq<Pattern> := [KeywordRun(Letters, BUILDING_KEYWORDS)]

  /** `split_address`: the shared split with this one keyword pattern. Empty input gives
      four empty columns; the columns concatenate back to the address without
      whitespace; a building is found only when the text after the city holds one of the
      four keywords, and then the street is the text before the pattern's leftmost
      match. */
  function SplitAddress(addr: string): (r: Parts)
    ensures addr == "" ==> r == EMPTY_PARTS
    ensures Joined(r) == RemoveSpace(addr) && PartsNoSpace(r)
    ensures r.building != "" ==> ContainsAny(r.building, BUILDING_KEYWORDS)
                                 && IsLeftmost(RULES[0], r.street + r.building, |r.street|)
    ensures r.building == "" ==> NoMatch(RULES[0], r.street)
  {
    SplitKeywordBuilding(Letters, BUILDING_KEYWORDS, addr);
    Split(RULES, addr)
  }

  // ---------------------------------------------------------------------------------
  // The official URL of scrape_detail

  const OFFICIAL_KEYWORDS: seq<string> := ["ホームページ", "公式", "HP"]

  /** The official-URL loop of `scrape_detail` over the (stripped text, href) pairs of
      the page's anchors, then `check_ssl` on the result; `handshake` stands for the TLS
      connection. The URL is the href of the first anchor whose text holds
      ホームページ, 公式 or HP, whose href starts with `http` and does not mention
      gnavi.co.jp, or "" when there is none; SSL is false for "" and for any URL not
      starting with `https://`. */
  method OfficialUrl(links: seq<Link>, handshake: string -> bool) returns (url: string, ssl: bool)
    ensures url == "" <==> forall i :: 0 <= i < |links| ==> !OfficialCandidate(links[i], OFFICIAL_KEYWORDS, "gnavi.co.jp")
    ensures url != "" ==> exists k :: 0 <= k < |links| && url == links[k].href
                                      && OfficialCandidate(links[k], OFFICIAL_KEYWORDS, "gnavi.co.jp")
                                      && forall m :: 0 <= m < k ==> !OfficialCandidate(links[m], OFFICIAL_KEYWORDS, "gnavi.co.jp")
    ensures url != "" ==> !Contains(url, "gnavi.co.jp")
    ensures ssl ==> StartsWith(url, "https://")
  {
    url := PickOfficialUrl(links, OFFICIAL_KEYWORDS, "gnavi.co.jp");
    ssl := CheckSslWithHandshake(url, handshake(url));
  }

  // ---------------------------------------------------------------------------------
  // scrape_list

  const MAX_PAGES := 10

  predicate RestaurantPath(h: string) {
    Contains(h, "/restaurant/")
  }

  /** What the loop keeps true: at most maxRecords complete records, each scraped from
      a fetched URL; the fetched URLs are distinct and all in `visited`. */
  predicate Progress(data: seq<Record>, maxRecords: nat, fetched: seq<string>, source: seq<nat>,
                     visited: set<string>, detail: string -> Option<Record>) {
    && |data| <= maxRecords
    && (forall i :: 0 <= i < |data| ==> Complete(data[i]))
    && Sourced(data, fetched, source, detail)
    && Distinct(fetched)
    && (forall k :: 0 <= k < |fetched| ==> fetched[k] in visited)
  }

  /** The restaurant links of a list page; none when its request raised. */
  function LinksOf(listing: string -> Option<seq<string>>): string -> seq<string> {
    u => if listing(u).Some? then Filter(listing(u).value, RestaurantPath) else []
  }

  /** The loop over the restaurant links of one list page. It opens, in order, each link
      (joined to the site root unless it starts with `http`) that was not visited, until
      maxRecords records are held: the URLs `added` to the fetched ones are what `Opened`
      lists for the first `stop` links, where `stop` covers all the links unless the cap
      was reached. The records are what `KeepAll` keeps from them (complete records,
      duplicates included), and the visited set grows by exactly those URLs. */
  method ScrapeLinks(links: seq<string>, maxRecords: nat, join: string -> string,
                     detail: string -> Option<Record>, data0: seq<Record>, visited0: set<string>,
                     ghost fetched0: seq<string>, ghost source0: seq<nat>)
    returns (data: seq<Record>, visited: set<string>, ghost fetched: seq<string>, ghost source: seq<nat>,
             ghost added: seq<string>, ghost stop: nat)
    requires Progress(data0, maxRecords, fetched0, source0, visited0, detail)
    ensures Progress(data, maxRecords, fetched, source, visited, detail)
    ensures fetched == fetched0 + added
    ensures stop <= |links| && (stop == |links| || |data| >= maxRecords)
    ensures added == Opened(links[..stop], HttpOrJoined(join), Anything(), true, visited0)
    ensures data == KeepAll(data0, added, detail, CompleteOnly)
    ensures UnderCap(data0, added, detail, CompleteOnly, maxRecords)
    ensures visited == visited0 + SetOf(added)
  {
    data, visited, fetched, source, added := data0, visited0, fetched0, source0, [];
    WalkStart(links, HttpOrJoined(join), Anything(), true, visited0, data0, detail, CompleteOnly, maxRecords);
    var j := 0;
    while j < |links|
      invariant Progress(data, maxRecords, fetched, source, visited, detail)
      invariant fetched == fetched0 + added
      invariant Walked(links, j, HttpOrJoined(join), Anything(), true, visited0, data0, detail, CompleteOnly,
                       maxRecords, data, visited, added)
    {
      if |data| >= maxRecords {
        break;
      }
      var data', visited', fetched', source', added' := VisitLink(links[j], maxRecords, join, detail, data, visited,
                                                                  fetched, source, added, fetched0);
      WalkOn(links, j, HttpOrJoined(join), Anything(), true, visited0, data0, detail, CompleteOnly, maxRecords,
             data, visited, added, data', visited', added');
      data, visited, fetched, source, added := data', visited', fetched', source', added';
      j := j + 1;
    }
    stop := j;
  }

  /** One link of the loop, below the cap: it is joined unless it starts with `http`,
      opened when not visited, and its record kept when complete. */
  method VisitLink(h: string, maxRecords: nat, join: string -> string, detail: string -> Option<Record>,
                   data0: seq<Record>, visited0: set<string>, ghost fetched0: seq<string>,
                   ghost source0: seq<nat>, ghost added0: seq<string>, ghost start: seq<string>)
    returns (data: seq<Record>, visited: set<string>, ghost fetched: seq<string>, ghost source: seq<nat>,
             ghost added: seq<string>)
    requires Progress(data0, maxRecords, fetched0, source0, visited0, detail) && |data0| < maxRecords
    requires fetched0 == start + added0
    ensures Progress(data, maxRecords, fetched, source, visited, detail)
    ensures StepOf(h, HttpOrJoined(join), Anything(), true, detail, CompleteOnly, data0, visited0, added0,
                   data, visited, added)
    ensures fetched == start + added
  {
    data, visited, fetched, source, added := data0, visited0, fetched0, source0, added0;
    var url := h;
    if !StartsWith(url, "http") {
      url := join(url);
    }
    if url in visited {
      return;
    }
    visited := visited + {url};
    AppendKeepsDistinctUrls(fetched, url);
    SourcedAfterFetch(data, fetched, source, detail, url);
    fetched := fetched + [url];
    var result := detail(url);
    if result.Some? && result.value.name != "" && result.value.city != "" && result.value.street != "" {
      SourcedAfterKeep(data, fetched, source, detail, result.value);
      data, source := data + [result.value], source + [|fetched| - 1];
    }
    added := added + [url];
    assert fetched == start + added;
  }

  /** `scrape_list`. `listing` gives the hrefs of a list page's anchors (None when the
      request raised), `join` is `urljoin` on the site root and `detail` the record
      `scrape_detail` returns for a URL (None when it raised). The ghost `requested`
      lists the list pages requested; `fetched` the detail pages opened; record i came
      from `fetched[source[i]]`. Pages are requested while fewer than maxRecords records
      are held, up to MAX_PAGES, until a request raises (a page without links does not
      stop it). The detail pages opened are what the first `examined` links of all the
      requested pages open, where `examined` covers all of them unless the cap was
      reached, and the records are those the complete-record rule keeps from them. */
  method ScrapeList(base: string, maxRecords: nat, listing: string -> Option<seq<string>>,
                    join: string -> string, detail: string -> Option<Record>)
    returns (data: seq<Record>, ghost requested: seq<string>, ghost fetched: seq<string>,
             ghost source: seq<nat>, ghost examined: nat)
    ensures |requested| <= MAX_PAGES
    ensures forall i :: 0 <= i < |requested| ==> requested[i] == PlainPageUrl(base, i + 1)
    ensures |requested| < MAX_PAGES && |data| < maxRecords ==>
              |requested| > 0 && listing(requested[|requested| - 1]).None?
    ensures Crawled(AllLinks(requested, LinksOf(listing)), HttpOrJoined(join), Anything(), true, detail,
                    CompleteOnly, maxRecords, data, SetOf(fetched), fetched, examined)
    ensures |data| <= maxRecords
    ensures forall i :: 0 <= i < |data| ==> Complete(data[i])
    ensures Distinct(fetched)
    ensures Sourced(data, fetched, source, detail)
  {
    data, requested, fetched, source, examined := [], [], [], [], 0;
    var visited: set<string> := {};
    ghost var all: seq<string> := [];
    CrawlStart(HttpOrJoined(join), Anything(), true, detail, CompleteOnly, maxRecords);
    var page := 1;
    while |data| < maxRecords && page <= MAX_PAGES
      invariant 1 <= page <= MAX_PAGES + 1 && |requested| == page - 1
      invariant Scanned(base, maxRecords, listing, join, detail, requested, data, visited, fetched, source,
                        all, examined)
      decreases MAX_PAGES + 1 - page
    {
      var failed;
      failed, data, visited, requested, fetched, source, all, examined :=
        ListPage(base, page, maxRecords, listing, join, detail, data, visited, requested, fetched, source,
                 all, examined);
      if failed {
        break;
      }
      page := page + 1;
    }
    assert visited == SetOf(fetched);
    PlainPagesAt(base, requested);
  }

  /** What `scrape_list` has done after requesting the list pages `requested`: they are
      the plain pages from the first on, and the crawl has examined their links. */
  ghost predicate Scanned(base: string, maxRecords: nat, listing: string -> Option<seq<string>>,
                          join: string -> string, detail: string -> Option<Record>, requested: seq<string>,
                          data: seq<Record>, visited: set<string>, fetched: seq<string>, source: seq<nat>,
                          all: seq<string>, examined: nat) {
    && requested == PlainPages(base, |requested|)
    && Progress(data, maxRecords, fetched, source, visited, detail)
    && all == AllLinks(requested, LinksOf(listing))
    && Crawled(all, HttpOrJoined(join), Anything(), true, detail, CompleteOnly, maxRecords,
               data, visited, fetched, examined)
  }

  /** One turn of the page loop of `scrape_list`: list page `page`, the one after those
      requested so far, is requested and scraped. */
  method ListPage(base: string, page: nat, maxRecords: nat, listing: string -> Option<seq<string>>,
                  join: string -> string, detail: string -> Option<Record>, data0: seq<Record>,
                  visited0: set<string>, ghost requested0: seq<string>, ghost fetched0: seq<string>,
                  ghost source0: seq<nat>, ghost all0: seq<string>, ghost examined0: nat)
    returns (failed: bool, data: seq<Record>, visited: set<string>, ghost requested: seq<string>,
             ghost fetched: seq<string>, ghost source: seq<nat>, ghost all: seq<string>, ghost examined: nat)
    requires page == |requested0| + 1 && |data0| < maxRecords
    requires Scanned(base, maxRecords, listing, join, detail, requested0, data0, visited0, fetched0, source0,
                     all0, examined0)
    ensures requested == requested0 + [PlainPageUrl(base, page)]
    ensures failed <==> listing(PlainPageUrl(base, page)).None?
    ensures Scanned(base, maxRecords, listing, join, detail, requested, data, visited, fetched, source,
                    all, examined)
  {
    var listUrl := PlainPageUrl(base, page);
    requested := requested0 + [listUrl];
    failed, data, visited, fetched, source, all, examined :=
      ScrapePage(listUrl, maxRecords, listing, join, detail, data0, visited0, fetched0, source0, all0, examined0);
    ScannedStep(base, page, maxRecords, listing, join, detail, requested0, all0, data, visited, fetched, source,
                all, examined);
  }

  /** The page after those requested extends the pages requested, and its links the
      links examined, so a scraped page keeps `Scanned`. */
  lemma ScannedStep(base: string, page: nat, maxRecords: nat, listing: string -> Option<seq<string>>,
                    join: string -> string, detail: string -> Option<Record>, requested0: seq<string>,
                    all0: seq<string>, data: seq<Record>, visited: set<string>, fetched: seq<string>,
                    source: seq<nat>, all: seq<string>, examined: nat)
    requires page == |requested0| + 1
    requires requested0 == PlainPages(base, |requested0|) && all0 == AllLinks(requested0, LinksOf(listing))
    requires Progress(data, maxRecords, fetched, source, visited, detail)
    requires all == all0 + LinksOf(listing)(PlainPageUrl(base, page))
    requires Crawled(all, HttpOrJoined(join), Anything(), true, detail, CompleteOnly, maxRecords,
                     data, visited, fetched, examined)
    ensures Scanned(base, maxRecords, listing, join, detail, requested0 + [PlainPageUrl(base, page)], data,
                    visited, fetched, source, all, examined)
  {
    AllLinksStep(requested0, PlainPageUrl(base, page), LinksOf(listing));
  }

  /** One list page of `scrape_list`, requested below the cap: `failed` when its request
      raised, and otherwise the loop runs over its restaurant links; the crawl has then
      also examined this page's links. */
  method ScrapePage(listUrl: string, maxRecords: nat, listing: string -> Option<seq<string>>,
                    join: string -> string, detail: string -> Option<Record>,
                    data0: seq<Record>, visited0: set<string>, ghost fetched0: seq<string>, ghost source0: seq<nat>,
                    ghost all0: seq<string>, ghost examined0: nat)
    returns (failed: bool, data: seq<Record>, visited: set<string>, ghost fetched: seq<string>,
             ghost source: seq<nat>, ghost all: seq<string>, ghost examined: nat)
    requires Progress(data0, maxRecords, fetched0, source0, visited0, detail) && |data0| < maxRecords
    requires Crawled(all0, HttpOrJoined(join), Anything(), true, detail, CompleteOnly, maxRecords,
                     data0, visited0, fetched0, examined0)
    ensures Progress(data, maxRecords, fetched, source, visited, detail)
    ensures all == all0 + LinksOf(listing)(listUrl)
    ensures Crawled(all, HttpOrJoined(join), Anything(), true, detail, CompleteOnly, maxRecords,
                    data, visited, fetched, examined)
    ensures failed <==> listing(listUrl).None?
  {
    data, visited, fetched, source, examined := data0, visited0, fetched0, source0, examined0;
    all := all0 + LinksOf(listing)(listUrl);
    var hrefs := listing(listUrl);
    if hrefs.None? {
      CrawlEmpty(all0, all, HttpOrJoined(join), Anything(), true, detail, CompleteOnly, maxRecords,
                 data, visited, fetched, examined);
      return true, data, visited, fetched, source, all, examined;
    }
    var links := Filter(hrefs.value, RestaurantPath);
    ghost var added, stop := [], 0;
    data, visited, fetched, source, added, stop := ScrapeLinks(links, maxRecords, join, detail, data0, visited0,
                                                               fetched0, source0);
    examined := |all0| + stop;
    CrawlOn(all0, links, all, HttpOrJoined(join), Anything(), true, detail, CompleteOnly, maxRecords,
            data0, visited0, fetched0, examined0, stop, added, data, visited, fetched, examined);
    failed := false;
  }
}
