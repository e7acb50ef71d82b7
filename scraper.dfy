/** The requests/BeautifulSoup scraper (Final_Answer/Exercise_for_Pool/python/scraper.py):
    its address split with one keyword pattern, the page-URL rule, the shop-name chain of
    `scrape_restaurant_detail` and the `scrape_restaurant_list` accumulator. */
module Scraper {
  import opened Text
  import opened Address
  import opened Scraping

  // ---------------------------------------------------------------------------------
  // split_address

  /** The keyword alternatives of the building pattern. */
  const BUILDING_KEYWORDS: seq<string> := [
    "ビル", "タワー", "ハイツ", "マンション", "アパート", "ビルディング", "プラザ", "センター",
    "BLDG", "Bldg", "GATE"
  ]

  /** `[ぁ-んァ-ヶー一-龠a-zA-Z]+(?:ビル|…|GATE)[^0-9]*[0-9]*[階F号]?.*?$`, the only pattern. */
  const RULES: seq<Pattern> := [KeywordRun(Letters, BUILDING_KEYWORDS)]

  /** `split_address` as the script writes it: whitespace removed, the listed prefecture,
      the shortest 市区町村 prefix, then one `re.search` for the building; the street is
      the text before the match, or all of it. It is the shared split with this one
      pattern. */
  function SplitAddress(full: string): (r: Parts)
    ensures r == Split(RULES, full)
  {
    if full == "" then EMPTY_PARTS
    else
      var a := RemoveSpace(full);
      var prefecture := PrefectureOf(a);
      var remaining := a[|prefecture|..];
      var city := remaining[..CityEnd(remaining)];
      var rest := remaining[|city|..];
      match Search(RULES[0], rest)
      case Some(start) => Parts(prefecture, city, rest[..start], rest[start..])
      case None => Parts(prefecture, city, rest, "")
  }

  /** The columns concatenate back to the address without whitespace and hold none; a
      non-empty building holds one of the keywords and starts at the pattern's leftmost
      match after the city, so the street is the text before it; an empty building means
      the pattern matches nowhere in the street. */
  lemma SplitAddressColumns(full: string)
    ensures var r := SplitAddress(full);
            && (full == "" ==> r == EMPTY_PARTS)
            && Joined(r) == RemoveSpace(full)
            && PartsNoSpace(r)
            && (r.building != "" ==>
                  ContainsAny(r.building, BUILDING_KEYWORDS)
                  && IsLeftmost(RULES[0], r.street + r.building, |r.street|))
            && (r.building == "" ==> NoMatch(RULES[0], r.street))
  {
    SplitKeywordBuilding(Letters, BUILDING_KEYWORDS, full);
  }

  // ---------------------------------------------------------------------------------
  // The shop name of scrape_restaurant_detail

  /** The words that mark a heading as a feature or campaign rather than a shop name. */
  const NAME_EXCLUDES: seq<string> := [
    "特集", "忘年会", "歓迎会", "送別会", "新年会", "宴会", "キャンペーン", "予約", "年会"
  ]

  predicate Excluded(t: string) {
    ContainsAny(t, NAME_EXCLUDES)
  }

  /** What the h2 and selector fallbacks accept: no excluded word, more than two
      characters. */
  predicate Acceptable(t: string) {
    !Excluded(t) && |t| > 2
  }

  /** The first acceptable text, or "". */
  function FirstAcceptable(ts: seq<string>): (r: string)
    ensures r == "" <==> forall k :: 0 <= k < |ts| ==> !Acceptable(ts[k])
    ensures r != "" ==> exists k :: 0 <= k < |ts| && ts[k] == r && Acceptable(r)
                                    && forall m :: 0 <= m < k ==> !Acceptable(ts[m])
  {
    if ts == [] then ""
    else if Acceptable(ts[0]) then ts[0]
    else
      var r := FirstAcceptable(ts[1..]);
      assert forall k :: 1 <= k < |ts| ==> ts[k] == ts[1..][k - 1];
      r
  }

  /** The name the detail scrape settles on, given the text of the first h1 ("" when
      there is none), of every h2, and of the five selector hits ("" when a selector
      finds nothing). The h1 text is taken whenever it holds no excluded word; when that
      leaves the name empty the first acceptable h2, then the first acceptable selector
      hit, is taken. The result never holds an excluded word, and a name of two
      characters or fewer can only come from the h1. */
  function NameOf(h1: string, h2s: seq<string>, selected: seq<string>): (name: string)
    ensures name == "" || !Excluded(name)
    ensures name != "" && |name| <= 2 ==> name == h1
    ensures name == "" <==> (h1 == "" || Excluded(h1))
                            && (forall k :: 0 <= k < |h2s| ==> !Acceptable(h2s[k]))
                            && (forall k :: 0 <= k < |selected| ==> !Acceptable(selected[k]))
    ensures !Excluded(h1) && h1 != "" ==> name == h1
  {
    if !Excluded(h1) && h1 != "" then h1
    else if FirstAcceptable(h2s) != "" then FirstAcceptable(h2s)
    else FirstAcceptable(selected)
  }

  /** One of the two fallback loops of the name chain: the first candidate with no
      excluded word and more than two characters, or "" when there is none. */
  method ScanAcceptable(ts: seq<string>) returns (name: string)
    ensures name == FirstAcceptable(ts)
  {
    name := "";
    var i := 0;
    while i < |ts|
      invariant 0 <= i <= |ts|
      invariant FirstAcceptable(ts) == FirstAcceptable(ts[i..])
    {
      var excluded := HasAnyKeyword(ts[i], NAME_EXCLUDES);
      if !excluded && |ts[i]| > 2 {
        name := ts[i];
        return;
      }
      assert ts[i..][1..] == ts[i + 1..];
      i := i + 1;
    }
  }

  /** The name chain of `scrape_restaurant_detail`, reassigning `name` step by step. */
  method PickName(h1: string, h2s: seq<string>, selected: seq<string>) returns (name: string)
    ensures name == NameOf(h1, h2s, selected)
  {
    name := "";
    var excluded := HasAnyKeyword(h1, NAME_EXCLUDES);
    if !excluded {
      name := h1;
    }
    if name == "" {
      name := ScanAcceptable(h2s);
    }
    if name == "" {
      name := ScanAcceptable(selected);
    }
  }


  // ---------------------------------------------------------------------------------
  // scrape_restaurant_list

  /** The pages the loop may request. */
  const MAX_PAGES := 10

  /** `'/restaurant/' in href or 'r.gnavi.co.jp' in href` */
  predicate RestaurantHref(h: string) {
    Contains(h, "/restaurant/") || Contains(h, "r.gnavi.co.jp")
  }

  /** The link-gathering loop of a search page. */
  method GatherLinks(hrefs: seq<string>) returns (links: seq<string>)
    ensures links == Filter(hrefs, RestaurantHref)
  {
    links := [];
    for i := 0 to |hrefs|
      invariant links == Filter(hrefs[..i], RestaurantHref)
    {
      FilterStep(hrefs, i, RestaurantHref);
      if Contains(hrefs[i], "/restaurant/") || Contains(hrefs[i], "r.gnavi.co.jp") {
        links := links + [hrefs[i]];
      }
    }
    assert hrefs[..|hrefs|] == hrefs;
  }

  /** The absolute URL of a link: relative ones are joined to the site root by
      `urljoin`, given here as `join`. */
  function Absolute(href: string, join: string -> string): (u: string)
    ensures href == "" ==> u == ""
    ensures StartsWith(href, "http") ==> u == href
  {
    if href != "" && !StartsWith(href, "http") then join(href) else href
  }

  /** What the inner loop opens: a non-empty URL naming gnavi.co.jp. */
  predicate GnaviTarget(u: string) {
    u != "" && Contains(u, "gnavi.co.jp")
  }

  /** The absolute URL of each link. */
  function AbsoluteIn(join: string -> string): string -> string {
    h => Absolute(h, join)
  }

  /** The restaurant links of a search page; none when its request raised. */
  function LinksOf(listing: string -> Option<seq<string>>): string -> seq<string> {
    u => if listing(u).Some? then Filter(listing(u).value, RestaurantHref) else []
  }

  /** What the loop keeps true: at most maxRecords complete records with distinct
      names, each scraped from a fetched URL; the fetched URLs are distinct, name
      gnavi.co.jp and are all in `visited`. */
  predicate Progress(data: seq<Record>, maxRecords: nat, fetched: seq<string>, source: seq<nat>,
                     visited: set<string>, detail: string -> Option<Record>) {
    && Kept(data, maxRecords)
    && Sourced(data, fetched, source, detail)
    && Distinct(fetched)
    && (forall k :: 0 <= k < |fetched| ==> fetched[k] in visited && Contains(fetched[k], "gnavi.co.jp"))
  }

  /** The inner loop over the restaurant links of one search page. It opens, in order,
      the absolute URL of each link that names gnavi.co.jp and was not visited, until
      maxRecords records are held: the URLs `added` to the fetched ones are the start of
      what `Opened` lists: what its first `stop` links open, where `stop` covers all the
      links unless the cap was reached. The records are what `KeepAll` keeps from those
      URLs, and the visited set grows by exactly them. */
  method ScrapeLinks(links: seq<string>, maxRecords: nat, join: string -> string,
                     detail: string -> Option<Record>, data0: seq<Record>, visited0: set<string>,
                     ghost fetched0: seq<string>, ghost source0: seq<nat>)
    returns (data: seq<Record>, visited: set<string>, ghost fetched: seq<string>, ghost source: seq<nat>,
             ghost added: seq<string>, ghost stop: nat)
    requires Progress(data0, maxRecords, fetched0, source0, visited0, detail)
    ensures Progress(data, maxRecords, fetched, source, visited, detail)
    ensures fetched == fetched0 + added
    ensures stop <= |links| && (stop == |links| || |data| >= maxRecords)
    ensures added == Opened(links[..stop], AbsoluteIn(join), GnaviTarget, true, visited0)
    ensures data == KeepAll(data0, added, detail, NewComplete)
    ensures UnderCap(data0, added, detail, NewComplete, maxRecords)
    ensures visited == visited0 + SetOf(added)
  {
    data, visited, fetched, source, added := data0, visited0, fetched0, source0, [];
    WalkStart(links, AbsoluteIn(join), GnaviTarget, true, visited0, data0, detail, NewComplete, maxRecords);
    var j := 0;
    while j < |links|
      invariant Progress(data, maxRecords, fetched, source, visited, detail)
      invariant fetched == fetched0 + added
      invariant Walked(links, j, AbsoluteIn(join), GnaviTarget, true, visited0, data0, detail, NewComplete, maxRecords,
                       data, visited, added)
    {
      if |data| >= maxRecords {
        break;
      }
      var data', visited', fetched', source', added' := OpenLink(links[j], maxRecords, join, detail, data, visited,
                                                                 fetched, source, added, fetched0);
      WalkOn(links, j, AbsoluteIn(join), GnaviTarget, true, visited0, data0, detail, NewComplete, maxRecords,
             data, visited, added, data', visited', added');
      data, visited, fetched, source, added := data', visited', fetched', source', added';
      j := j + 1;
    }
    stop := j;
  }

  /** One link of the inner loop, below the cap: its absolute URL is opened when it names
      gnavi.co.jp and was not visited, and the record scraped from it is kept when it is
      complete with a new name. */
  method OpenLink(h: string, maxRecords: nat, join: string -> string, detail: string -> Option<Record>,
                  data0: seq<Record>, visited0: set<string>, ghost fetched0: seq<string>,
                  ghost source0: seq<nat>, ghost added0: seq<string>, ghost start: seq<string>)
    returns (data: seq<Record>, visited: set<string>, ghost fetched: seq<string>, ghost source: seq<nat>,
             ghost added: seq<string>)
    requires Progress(data0, maxRecords, fetched0, source0, visited0, detail) && |data0| < maxRecords
    requires fetched0 == start + added0
    ensures Progress(data, maxRecords, fetched, source, visited, detail)
    ensures StepOf(h, AbsoluteIn(join), GnaviTarget, true, detail, NewComplete, data0, visited0, added0,
                   data, visited, added)
    ensures fetched == start + added
  {
    data, visited, fetched, source, added := data0, visited0, fetched0, source0, added0;
    var u := Absolute(h, join);
    if u == "" || !Contains(u, "gnavi.co.jp") {
      return;
    }
    if u in visited {
      return;
    }
    visited := visited + {u};
    AppendKeepsDistinctUrls(fetched, u);
    data, fetched, source := FetchAndKeep(u, detail, data, fetched, source);
    added := added + [u];
    assert fetched == start + added;
  }

  /** `scrape_restaurant_list`. The browser is given as `listing`, the hrefs of the
      anchors on a search page (None when the request raised), `join` (`urljoin` on the
      site root) and `detail`, the record `scrape_restaurant_detail` returns for a URL
      (None when it failed). The ghost `requested` lists the search pages requested, in
      order; `fetched` the detail pages opened; record i came from `fetched[source[i]]`.
      Pages are requested while fewer than maxRecords records are held, up to
      MAX_PAGES, and the loop stops at the first page that fails or has no restaurant
      link. The detail pages opened are what the first `examined` links of all the
      requested pages open, in order, where `examined` covers all of them unless the cap
      was reached, and the records are exactly those the keep rule takes from them. */
  method ScrapeRestaurantList(base: string, maxRecords: nat,
                              listing: string -> Option<seq<string>>, join: string -> string,
                              detail: string -> Option<Record>)
    returns (data: seq<Record>, ghost requested: seq<string>, ghost fetched: seq<string>,
             ghost source: seq<nat>, ghost examined: nat)
    ensures |requested| <= MAX_PAGES
    ensures forall i :: 0 <= i < |requested| ==> requested[i] == PageUrl(base, i + 1)
    ensures forall i :: 0 <= i < |requested| - 1 ==> LinksOf(listing)(requested[i]) != []
    ensures |requested| < MAX_PAGES && |data| < maxRecords ==>
              |requested| > 0 && LinksOf(listing)(requested[|requested| - 1]) == []
    ensures Crawled(AllLinks(requested, LinksOf(listing)), AbsoluteIn(join), GnaviTarget, true, detail,
                    NewComplete, maxRecords, data, SetOf(fetched), fetched, examined)
    ensures |data| <= maxRecords
    ensures forall i :: 0 <= i < |data| ==> Complete(data[i])
    ensures DistinctNames(data)
    ensures Distinct(fetched)
    ensures forall k :: 0 <= k < |fetched| ==> Contains(fetched[k], "gnavi.co.jp")
    ensures Sourced(data, fetched, source, detail)
  {
    var visited;
    ghost var linked, all;
    data, visited, requested, linked, fetched, source, all, examined :=
      ListPages(base, maxRecords, listing, join, detail);
    ScanEnds(base, maxRecords, listing, join, detail, requested, linked, data, visited, fetched, source,
             all, examined);
  }

  /** The page loop of `scrape_restaurant_list`: search pages are requested from the
      first on until the cap, the last page or a page without links; every page in
      `linked` had links. */
  method ListPages(base: string, maxRecords: nat, listing: string -> Option<seq<string>>,
                   join: string -> string, detail: string -> Option<Record>)
    returns (data: seq<Record>, visited: set<string>, ghost requested: seq<string>, ghost linked: seq<string>,
             ghost fetched: seq<string>, ghost source: seq<nat>, ghost all: seq<string>, ghost examined: nat)
    ensures Stopped(base, maxRecords, listing, join, detail, requested, linked, data, visited, fetched,
                    source, all, examined)
  {
    data, visited, requested, fetched, source, all, examined := [], {}, [], [], [], [], 0;
    CrawlStart(AbsoluteIn(join), GnaviTarget, true, detail, NewComplete, maxRecords);
    var page := 1;
    while |data| < maxRecords && page <= MAX_PAGES
      invariant 1 <= page <= MAX_PAGES + 1 && |requested| == page - 1
      invariant EachHasLinks(requested, LinksOf(listing))
      invariant Scanned(base, maxRecords, listing, join, detail, requested, data, visited, fetched, source,
                        all, examined)
      decreases MAX_PAGES + 1 - page
    {
      ghost var before := requested;
      var more;
      more, data, visited, requested, fetched, source, all, examined :=
        ListPage(base, page, maxRecords, listing, join, detail, data, visited, requested, fetched, source,
                 all, examined);
      if !more {
        // the loop is left, and nothing but the return follows it
        linked := before;
        return;
      }
      page := page + 1;
    }
    linked := requested;
  }

  /** How the page loop of `scrape_restaurant_list` has ended: every page in `linked`
      had links, and either they are all the pages requested and the loop stopped at the
      cap or after the last page, or the last one requested had none. */
  ghost predicate Stopped(base: string, maxRecords: nat, listing: string -> Option<seq<string>>,
                          join: string -> string, detail: string -> Option<Record>, requested: seq<string>,
                          linked: seq<string>, data: seq<Record>, visited: set<string>, fetched: seq<string>,
                          source: seq<nat>, all: seq<string>, examined: nat) {
    && Scanned(base, maxRecords, listing, join, detail, requested, data, visited, fetched, source,
               all, examined)
    && |requested| <= MAX_PAGES && EachHasLinks(linked, LinksOf(listing))
    && (|| (requested == linked && (|requested| == MAX_PAGES || |data| >= maxRecords))
        || (|requested| > 0 && requested == linked + [PageUrl(base, |requested|)]
            && LinksOf(listing)(PageUrl(base, |requested|)) == []))
  }

  /** Where the page loop of `scrape_restaurant_list` has stopped, what the function
      returns keeps every promise of `scrape_restaurant_list`. */
  lemma ScanEnds(base: string, maxRecords: nat, listing: string -> Option<seq<string>>,
                 join: string -> string, detail: string -> Option<Record>, requested: seq<string>,
                 linked: seq<string>, data: seq<Record>, visited: set<string>, fetched: seq<string>,
                 source: seq<nat>, all: seq<string>, examined: nat)
    requires Stopped(base, maxRecords, listing, join, detail, requested, linked, data, visited, fetched,
                     source, all, examined)
    ensures forall i :: 0 <= i < |requested| ==> requested[i] == PageUrl(base, i + 1)
    ensures forall i :: 0 <= i < |requested| - 1 ==> LinksOf(listing)(requested[i]) != []
    ensures |requested| < MAX_PAGES && |data| < maxRecords ==>
              |requested| > 0 && LinksOf(listing)(requested[|requested| - 1]) == []
    ensures Crawled(AllLinks(requested, LinksOf(listing)), AbsoluteIn(join), GnaviTarget, true, detail,
                    NewComplete, maxRecords, data, SetOf(fetched), fetched, examined)
    ensures |data| <= maxRecords
    ensures forall i :: 0 <= i < |data| ==> Complete(data[i])
    ensures DistinctNames(data)
    ensures Distinct(fetched)
    ensures forall k :: 0 <= k < |fetched| ==> Contains(fetched[k], "gnavi.co.jp")
    ensures Sourced(data, fetched, source, detail)
  {
    PagesAt(base, requested);
    EachHasLinksAt(linked, LinksOf(listing));
  }

  /** What `scrape_restaurant_list` has done after requesting the search pages
      `requested`: they are the pages from the first on, and the crawl has examined
      their links. */
  ghost predicate Scanned(base: string, maxRecords: nat, listing: string -> Option<seq<string>>,
                          join: string -> string, detail: string -> Option<Record>, requested: seq<string>,
                          data: seq<Record>, visited: set<string>, fetched: seq<string>, source: seq<nat>,
                          all: seq<string>, examined: nat) {
    && requested == Pages(base, |requested|)
    && Progress(data, maxRecords, fetched, source, visited, detail)
    && all == AllLinks(requested, LinksOf(listing))
    && Crawled(all, AbsoluteIn(join), GnaviTarget, true, detail, NewComplete, maxRecords,
               data, visited, fetched, examined)
  }

  /** One turn of the page loop of `scrape_restaurant_list`: search page `page`, the one
      after those requested so far, is requested and scraped; `more` tells whether it
      had restaurant links. */
  method ListPage(base: string, page: nat, maxRecords: nat, listing: string -> Option<seq<string>>,
                  join: string -> string, detail: string -> Option<Record>, data0: seq<Record>,
                  visited0: set<string>, ghost requested0: seq<string>, ghost fetched0: seq<string>,
                  ghost source0: seq<nat>, ghost all0: seq<string>, ghost examined0: nat)
    returns (more: bool, data: seq<Record>, visited: set<string>, ghost requested: seq<string>,
             ghost fetched: seq<string>, ghost source: seq<nat>, ghost all: seq<string>, ghost examined: nat)
    requires page == |requested0| + 1 && |data0| < maxRecords
    requires EachHasLinks(requested0, LinksOf(listing))
    requires Scanned(base, maxRecords, listing, join, detail, requested0, data0, visited0, fetched0, source0,
                     all0, examined0)
    ensures requested == requested0 + [PageUrl(base, page)]
    ensures more <==> LinksOf(listing)(PageUrl(base, page)) != []
    ensures more ==> EachHasLinks(requested, LinksOf(listing))
    ensures Scanned(base, maxRecords, listing, join, detail, requested, data, visited, fetched, source,
                    all, examined)
  {
    var listUrl := PageUrl(base, page);
    requested := requested0 + [listUrl];
    assert LinksOf(listing)(listUrl) != [] ==> EachHasLinks(requested, LinksOf(listing)) by {
      if LinksOf(listing)(listUrl) != [] {
        EachHasLinksStep(requested0, listUrl, LinksOf(listing));
      }
    }
    data, visited, fetched, source, all, examined, more :=
      ScrapePage(listUrl, maxRecords, listing, join, detail, data0, visited0, fetched0, source0, all0, examined0);
    ScannedStep(base, page, maxRecords, listing, join, detail, requested0, all0, data, visited, fetched, source,
                all, examined);
  }

  /** The page after those requested extends the pages requested, and its links the
      links examined, so a scraped page keeps `Scanned`. */
  lemma ScannedStep(base: string, page: nat, maxRecords: nat, listing: string -> Option<seq<string>>,
                    join: string -> string, detail: string -> Option<Record>, requested0: seq<string>,
                    all0: seq<string>, data: seq<Record>, visited: set<string>, fetched: seq<string>,
                    source: seq<nat>, all: seq<string>, examined: nat)
    requires page == |requested0| + 1
    requires requested0 == Pages(base, |requested0|) && all0 == AllLinks(requested0, LinksOf(listing))
    requires Progress(data, maxRecords, fetched, source, visited, detail)
    requires all == all0 + LinksOf(listing)(PageUrl(base, page))
    requires Crawled(all, AbsoluteIn(join), GnaviTarget, true, detail, NewComplete, maxRecords,
                     data, visited, fetched, examined)
    ensures Scanned(base, maxRecords, listing, join, detail, requested0 + [PageUrl(base, page)], data, visited,
                    fetched, source, all, examined)
  {
    AllLinksStep(requested0, PageUrl(base, page), LinksOf(listing));
  }

  /** One search page of `scrape_restaurant_list`, requested below the cap: its
      restaurant links are gathered and, when there are any (`more`), the inner loop
      runs over them; the crawl has then also examined this page's links. */
  method ScrapePage(listUrl: string, maxRecords: nat, listing: string -> Option<seq<string>>,
                    join: string -> string, detail: string -> Option<Record>,
                    data0: seq<Record>, visited0: set<string>, ghost fetched0: seq<string>, ghost source0: seq<nat>,
                    ghost all0: seq<string>, ghost examined0: nat)
    returns (data: seq<Record>, visited: set<string>, ghost fetched: seq<string>, ghost source: seq<nat>,
             ghost all: seq<string>, ghost examined: nat, more: bool)
    requires Progress(data0, maxRecords, fetched0, source0, visited0, detail) && |data0| < maxRecords
    requires Crawled(all0, AbsoluteIn(join), GnaviTarget, true, detail, NewComplete, maxRecords,
                     data0, visited0, fetched0, examined0)
    ensures Progress(data, maxRecords, fetched, source, visited, detail)
    ensures all == all0 + LinksOf(listing)(listUrl)
    ensures Crawled(all, AbsoluteIn(join), GnaviTarget, true, detail, NewComplete, maxRecords,
                    data, visited, fetched, examined)
    ensures more <==> LinksOf(listing)(listUrl) != []
  {
    data, visited, fetched, source, examined := data0, visited0, fetched0, source0, examined0;
    all := all0 + LinksOf(listing)(listUrl);
    var hrefs := listing(listUrl);
    if hrefs.None? {
      CrawlEmpty(all0, all, AbsoluteIn(join), GnaviTarget, true, detail, NewComplete, maxRecords,
                 data, visited, fetched, examined);
      return data, visited, fetched, source, all, examined, false;
    }
    var links := GatherLinks(hrefs.value);
    assert LinksOf(listing)(listUrl) == links;
    if links == [] {
      CrawlEmpty(all0, all, AbsoluteIn(join), GnaviTarget, true, detail, NewComplete, maxRecords,
                 data, visited, fetched, examined);
      return data, visited, fetched, source, all, examined, false;
    }
    ghost var added, stop := [], 0;
    data, visited, fetched, source, added, stop := ScrapeLinks(links, maxRecords, join, detail, data0, visited0,
                                                               fetched0, source0);
    examined := |all0| + stop;
    CrawlOn(all0, links, all, AbsoluteIn(join), GnaviTarget, true, detail, NewComplete, maxRecords,
            data0, visited0, fetched0, examined0, stop, added, data, visited, fetched, examined);
    more := true;
  }
}
