/** The variant of exercise 2-2 that a shell heredoc writes out
    (Exercise_for_Pool/python/2-2.py): `split_addr`, which finds the prefecture by its
    last character instead of a list, the link filter and the `scrape_all` accumulator. */
module Pool22 {
  import opened Text
  import opened Address
  import opened Scraping

  // ---------------------------------------------------------------------------------
  // split_addr

  const PREF_MARKS: set<char> := {'都', '道', '府', '県'}
  const HOKKAIDO := "北海道"
  const KYOTO := "京都府"

  /** `re.match(r'^(北海道|.+?[都道府県])', addr)` as written: 北海道 when the address
      starts with it, otherwise the shortest prefix of at least two characters ending in
      都, 道, 府 or 県, or "". */
  function PrefectureAsWritten(a: string): (pref: string)
    ensures StartsWith(a, pref)
    ensures pref == "" || pref == HOKKAIDO || IsShortestEnd(a, PREF_MARKS, |pref|)
  {
    if StartsWith(a, HOKKAIDO) then HOKKAIDO else a[..ShortestPrefixEnd(a, PREF_MARKS)]
  }

  /** For an address in 京都府 the lazy match stops at the 都 of 京都: the prefecture
      comes out as 京都. */
  lemma KyotoCutShort(rest: string)
    ensures PrefectureAsWritten(KYOTO + rest) == "京都"
  {
    var a := KYOTO + rest;
    assert a[1] == '都' && a[0] == '京';
    assert EndsIn(a, PREF_MARKS, 2);
    assert a[0] != HOKKAIDO[0];
    assert a[..2] == "京都";
  }

  /** The prefecture rule with 京都府 matched before the lazy alternative. */
  function Prefecture(a: string): (pref: string)
    ensures StartsWith(a, pref)
    ensures pref == "" || pref == HOKKAIDO || pref == KYOTO || IsShortestEnd(a, PREF_MARKS, |pref|)
    ensures StartsWith(a, HOKKAIDO) ==> pref == HOKKAIDO
    ensures StartsWith(a, KYOTO) ==> pref == KYOTO
  {
    if StartsWith(a, HOKKAIDO) then HOKKAIDO
    else if StartsWith(a, KYOTO) then KYOTO
    else a[..ShortestPrefixEnd(a, PREF_MARKS)]
  }

  /** A name whose only 都道府県 character is its last, without line breaks, that
      starts neither like 北海道 nor like 京都府; every listed prefecture but those two
      is one (東京都, 神奈川県, …). */
  predicate PlainName(p: string) {
    && |p| >= 2 && p[0] != '北' && p[0] != '京'
    && p[|p| - 1] in PREF_MARKS
    && (forall j :: 1 <= j < |p| - 1 ==> p[j] !in PREF_MARKS)
    && NoNewline(p)
  }

  /** Both rules find a plain prefecture name whole: they differ only on 京都府. */
  lemma PrefecturePlain(p: string, a: string)
    requires PlainName(p) && StartsWith(a, p)
    ensures Prefecture(a) == p && PrefectureAsWritten(a) == p
  {
    assert a[..|p|] == p;
    assert a[0] == p[0];
    assert a[0] != HOKKAIDO[0] && a[0] != KYOTO[0];
    assert EndsIn(a, PREF_MARKS, |p|) by {
      assert a[|p| - 1] == p[|p| - 1];
      var q := a[..|p| - 1];
      assert forall i :: 0 <= i < |q| ==> q[i] == p[i];
    }
  }

  /** 東京都 is a plain name. */
  lemma TokyoPlain()
    ensures PlainName("東京都")
  {
  }

  /** `split_addr` with the corrected prefecture rule: empty input gives four empty
      columns; otherwise the prefecture, then the shortest 市区町村 prefix of the rest,
      the rest as street, and never a building. The three columns concatenate back to the
      address without whitespace. */
  function SplitAddr(addr: string): (r: Parts)
    ensures addr == "" ==> r == EMPTY_PARTS
    ensures r.building == ""
    ensures r.prefecture + r.city + r.street == RemoveSpace(addr)
    ensures PartsNoSpace(r)
    ensures addr != "" ==> r.prefecture == Prefecture(RemoveSpace(addr))
    ensures var rest := RemoveSpace(addr)[|r.prefecture|..];
            && StartsWith(rest, r.city)
            && (r.city == "" || IsShortestEnd(rest, CITY_MARKS, |r.city|))
            && (r.city == "" ==> forall t :: 2 <= t <= |rest| ==> !EndsIn(rest, CITY_MARKS, t))
  {
    if addr == "" then EMPTY_PARTS
    else
      var a := RemoveSpace(addr);
      var pref := Prefecture(a);
      var rem := a[|pref|..];
      var city := rem[..CityEnd(rem)];
      var street := rem[|city|..];
      SliceFacts(a, pref, rem, city, street, |street|);
      assert street[..|street|] == street && street[|street|..] == "";
      Parts(pref, city, street, "")
  }

  /** `split_addr` as written, with the lazy prefecture rule: the same columns as
      `SplitAddr` but for the prefecture, which is `PrefectureAsWritten`. */
  function SplitAddrAsWritten(addr: string): (r: Parts)
    ensures addr == "" ==> r == EMPTY_PARTS
    ensures r.building == ""
    ensures r.prefecture + r.city + r.street == RemoveSpace(addr)
    ensures PartsNoSpace(r)
    ensures addr != "" ==> r.prefecture == PrefectureAsWritten(RemoveSpace(addr))
    ensures var rest := RemoveSpace(addr)[|r.prefecture|..];
            && StartsWith(rest, r.city)
            && (r.city == "" || IsShortestEnd(rest, CITY_MARKS, |r.city|))
            && (r.city == "" ==> forall t :: 2 <= t <= |rest| ==> !EndsIn(rest, CITY_MARKS, t))
  {
    if addr == "" then EMPTY_PARTS
    else
      var a := RemoveSpace(addr);
      var pref := PrefectureAsWritten(a);
      var rem := a[|pref|..];
      var city := rem[..CityEnd(rem)];
      var street := rem[|city|..];
      SliceFacts(a, pref, rem, city, street, |street|);
      assert street[..|street|] == street && street[|street|..] == "";
      Parts(pref, city, street, "")
  }

  /** The two splits agree on every address that starts with a plain prefecture name:
      the bug is confined to 京都府. */
  lemma SplitsAgreePlain(p: string, addr: string)
    requires PlainName(p) && StartsWith(RemoveSpace(addr), p)
    ensures SplitAddr(addr) == SplitAddrAsWritten(addr)
  {
    PrefecturePlain(p, RemoveSpace(addr));
  }

  /** As written, an address in the city of Kyoto such as 京都府京都市中京区 is split
      into 京都 / 府京都市 / 中京区; the corrected rule gives 京都府 / 京都市 / 中京区. */
  lemma KyotoSplit(ward: string)
    requires NoSpace(ward) && ward != ""
    ensures SplitAddrAsWritten(KYOTO + "京都市" + ward) == Parts("京都", "府京都市", ward, "")
    ensures SplitAddr(KYOTO + "京都市" + ward) == Parts(KYOTO, "京都市", ward, "")
  {
    KyotoSplitAsWritten(ward);
    KyotoSplitCorrected(ward);
  }

  lemma KyotoAddress(ward: string)
    requires NoSpace(ward)
    ensures var a := KYOTO + "京都市" + ward;
            RemoveSpace(a) == a && a == KYOTO + ("京都市" + ward)
            && a[2..] == "府京都市" + ward && a[3..] == "京都市" + ward
  {
    var city := "京都市";
    var a := KYOTO + city + ward;
    assert NoSpace(KYOTO + city);
    assert NoSpace(a) by {
      forall i | 0 <= i < |a| ensures !IsSpace(a[i]) {
        if i >= 6 { assert a[i] == ward[i - 6]; } else { assert a[i] == (KYOTO + city)[i]; }
      }
    }
    RemoveSpaceOfNoSpace(a);
    assert a == KYOTO + (city + ward);
  }

  lemma KyotoSplitAsWritten(ward: string)
    requires NoSpace(ward) && ward != ""
    ensures SplitAddrAsWritten(KYOTO + "京都市" + ward) == Parts("京都", "府京都市", ward, "")
  {
    var a := KYOTO + "京都市" + ward;
    KyotoAddress(ward);
    KyotoCutShort("京都市" + ward);
    var rem := a[2..];
    CityAfterFu(ward);
    assert rem[..4] == "府京都市" && rem[4..] == ward;
  }

  lemma KyotoSplitCorrected(ward: string)
    requires NoSpace(ward) && ward != ""
    ensures SplitAddr(KYOTO + "京都市" + ward) == Parts(KYOTO, "京都市", ward, "")
  {
    var a := KYOTO + "京都市" + ward;
    KyotoAddress(ward);
    assert StartsWith(a, KYOTO) by {
      assert a[..3] == KYOTO;
    }
    var rem := a[3..];
    CityAfterKyoto(ward);
    assert rem[..3] == "京都市" && rem[3..] == ward;
  }

  lemma CityAfterFu(ward: string)
    ensures CityEnd("府京都市" + ward) == 4
  {
    var rem := "府京都市" + ward;
    assert rem[3] == '市' && rem[0] !in CITY_MARKS && rem[1] !in CITY_MARKS && rem[2] !in CITY_MARKS;
    assert EndsIn(rem, CITY_MARKS, 4);
  }

  lemma CityAfterKyoto(ward: string)
    ensures CityEnd("京都市" + ward) == 3
  {
    var rem := "京都市" + ward;
    assert rem[2] == '市' && rem[0] !in CITY_MARKS && rem[1] !in CITY_MARKS;
    assert EndsIn(rem, CITY_MARKS, 3);
  }


  // ---------------------------------------------------------------------------------
  // scrape_all

  const MAX_PAGES := 30

  /** `'r.gnavi.co.jp/r' in href and '/plan/' not in href` */
  predicate ShopHref(h: string) {
    Contains(h, "r.gnavi.co.jp/r") && !Contains(h, "/plan/")
  }

  /** The link loop of a list page followed by `list(set(links))`: every href that names
      a shop and was not visited, each once, in an order the set leaves open. */
  method GatherLinks(hrefs: seq<string>, visited: set<string>) returns (links: seq<string>)
    ensures Distinct(links)
    ensures forall h :: h in links <==> h in hrefs && ShopHref(h) && h !in visited
  {
    var raw := [];
    for i := 0 to |hrefs|
      invariant forall h :: h in raw <==> h in hrefs[..i] && ShopHref(h) && h !in visited
    {
      assert hrefs[..i + 1] == hrefs[..i] + [hrefs[i]];
      if Contains(hrefs[i], "r.gnavi.co.jp/r") && !Contains(hrefs[i], "/plan/") && hrefs[i] !in visited {
        raw := raw + [hrefs[i]];
      }
    }
    assert hrefs[..|hrefs|] == hrefs;
    var pending := set h | h in raw;
    links := [];
    while pending != {}
      invariant Distinct(links)
      invariant forall h :: h in raw <==> h in pending || h in links
      invariant forall h :: h in pending ==> h !in links
      decreases |pending|
    {
      var h :| h in pending;
      links := links + [h];
      pending := pending - {h};
    }
  }

  /** What the loop keeps true: at most maxN complete items, each scraped from a
      fetched URL; the fetched URLs are distinct and all in `visited`. */
  predicate Progress(data: seq<Record>, maxN: nat, fetched: seq<string>, source: seq<nat>,
                     visited: set<string>, detail: string -> Option<Record>) {
    && |data| <= maxN
    && (forall i :: 0 <= i < |data| ==> Complete(data[i]))
    && Sourced(data, fetched, source, detail)
    && Distinct(fetched)
    && (forall k :: 0 <= k < |fetched| ==> fetched[k] in visited)
  }

  /** The loop over the links of one list page. It opens, in order, each link (joined
      unless it starts with `http`) not visited, until maxN items are held: the URLs
      `added` to the fetched ones are what `Opened` lists for the first `stop` links,
      where `stop` covers all the links unless the cap was reached. The items are those
      of the opened pages that are complete, and the visited set grows by exactly the
      URLs opened. */
  method ScrapeLinks(links: seq<string>, maxN: nat, join: string -> string,
                     detail: string -> Option<Record>, data0: seq<Record>, visited0: set<string>,
                     ghost fetched0: seq<string>, ghost source0: seq<nat>)
    returns (data: seq<Record>, visited: set<string>, ghost fetched: seq<string>, ghost source: seq<nat>,
             ghost added: seq<string>, ghost stop: nat)
    requires Progress(data0, maxN, fetched0, source0, visited0, detail)
    ensures Progress(data, maxN, fetched, source, visited, detail)
    ensures fetched == fetched0 + added
    ensures stop <= |links| && (stop == |links| || |data| >= maxN)
    ensures added == Opened(links[..stop], HttpOrJoined(join), Anything(), true, visited0)
    ensures data == KeepAll(data0, added, detail, CompleteOnly)
    ensures UnderCap(data0, added, detail, CompleteOnly, maxN)
    ensures visited == visited0 + SetOf(added)
  {
    data, visited, fetched, source, added := data0, visited0, fetched0, source0, [];
    WalkStart(links, HttpOrJoined(join), Anything(), true, visited0, data0, detail, CompleteOnly, maxN);
    var j := 0;
    while j < |links|
      invariant Progress(data, maxN, fetched, source, visited, detail)
      invariant fetched == fetched0 + added
      invariant Walked(links, j, HttpOrJoined(join), Anything(), true, visited0, data0, detail, CompleteOnly, maxN,
                       data, visited, added)
    {
      if |data| >= maxN {
        break;
      }
      var data', visited', fetched', source', added' := ScrapeLink(links[j], maxN, join, detail, data, visited,
                                                                   fetched, source, added, fetched0);
      WalkOn(links, j, HttpOrJoined(join), Anything(), true, visited0, data0, detail, CompleteOnly, maxN,
             data, visited, added, data', visited', added');
      data, visited, fetched, source, added := data', visited', fetched', source', added';
      j := j + 1;
    }
    stop := j;
  }

  /** One link of the loop, below the cap: joined unless it starts with `http`, opened
      when not visited, and its item kept when it has a name, a city and a street. */
  method ScrapeLink(href0: string, maxN: nat, join: string -> string, detail: string -> Option<Record>,
                    data0: seq<Record>, visited0: set<string>, ghost fetched0: seq<string>,
                    ghost source0: seq<nat>, ghost added0: seq<string>, ghost start: seq<string>)
    returns (data: seq<Record>, visited: set<string>, ghost fetched: seq<string>, ghost source: seq<nat>,
             ghost added: seq<string>)
    requires Progress(data0, maxN, fetched0, source0, visited0, detail) && |data0| < maxN
    requires fetched0 == start + added0
    ensures Progress(data, maxN, fetched, source, visited, detail)
    ensures StepOf(href0, HttpOrJoined(join), Anything(), true, detail, CompleteOnly, data0, visited0, added0,
                   data, visited, added)
    ensures fetched == start + added
  {
    data, visited, fetched, source, added := data0, visited0, fetched0, source0, added0;
    var href := href0;
    if !StartsWith(href, "http") {
      href := join(href);
    }
    if href in visited {
      return;
    }
    visited := visited + {href};
    AppendKeepsDistinctUrls(fetched, href);
    SourcedAfterFetch(data, fetched, source, detail, href);
    fetched := fetched + [href];
    added := added + [href];
    assert fetched == start + added;
    var item := detail(href);
    if item.Some? && item.value.name != "" {
      if item.value.city != "" && item.value.street != "" {
        SourcedAfterKeep(data, fetched, source, detail, item.value);
        data, source := data + [item.value], source + [|fetched| - 1];
      }
    }
  }

  /** The links a list page yields: each shop href of its anchors not in `seen`, once. */
  ghost predicate GatheredOf(hrefs: seq<string>, seen: set<string>, run: seq<string>) {
    && Distinct(run)
    && forall h :: h in run <==> h in hrefs && ShopHref(h) && h !in seen
  }

  /** Run i holds the links gathered on list page i, which was fetched, against the URLs
      opened from the runs before it. */
  ghost predicate RunsOf(requested: seq<string>, runs: seq<seq<string>>, listing: string -> Option<seq<string>>,
                         join: string -> string)
    decreases |requested|
  {
    && |runs| == |requested|
    && (requested != [] ==>
          var before := runs[..|runs| - 1];
          && RunsOf(requested[..|requested| - 1], before, listing, join)
          && listing(requested[|requested| - 1]).Some?
          && GatheredOf(listing(requested[|requested| - 1]).value,
                        SetOf(Opened(Flatten(before), HttpOrJoined(join), Anything(), true, {})),
                        runs[|runs| - 1]))
  }

  /** One more fetched list page and its run. */
  lemma RunsOfStep(requested: seq<string>, runs: seq<seq<string>>, listing: string -> Option<seq<string>>,
                   join: string -> string, url: string, seen: set<string>, run: seq<string>)
    requires RunsOf(requested, runs, listing, join)
    requires seen == SetOf(Opened(Flatten(runs), HttpOrJoined(join), Anything(), true, {}))
    requires listing(url).Some? && GatheredOf(listing(url).value, seen, run)
    ensures RunsOf(requested + [url], runs + [run], listing, join)
  {
    assert (requested + [url])[..|requested|] == requested;
    assert (runs + [run])[..|runs|] == runs;
  }

  /** One list page, requested below the cap: `failed` when the request for the page
      raised, and then nothing changes; otherwise its links are gathered against the
      visited set into `run` and scraped, and the crawl has also examined them. */
  method ScrapePage(url: string, maxN: nat, listing: string -> Option<seq<string>>,
                    join: string -> string, detail: string -> Option<Record>,
                    data0: seq<Record>, visited0: set<string>,
                    ghost fetched0: seq<string>, ghost source0: seq<nat>,
                    ghost all0: seq<string>, ghost examined0: nat)
    returns (failed: bool, data: seq<Record>, visited: set<string>, ghost fetched: seq<string>,
             ghost source: seq<nat>, ghost run: seq<string>, ghost all: seq<string>, ghost examined: nat)
    requires Progress(data0, maxN, fetched0, source0, visited0, detail) && |data0| < maxN
    requires Crawled(all0, HttpOrJoined(join), Anything(), true, detail, CompleteOnly, maxN,
                     data0, visited0, fetched0, examined0)
    ensures Progress(data, maxN, fetched, source, visited, detail)
    ensures failed <==> listing(url).None?
    ensures failed ==> data == data0 && visited == visited0 && fetched == fetched0 && all == all0
    ensures !failed ==> GatheredOf(listing(url).value, visited0, run) && all == all0 + run
    ensures Crawled(all, HttpOrJoined(join), Anything(), true, detail, CompleteOnly, maxN,
                    data, visited, fetched, examined)
  {
    var hrefs := listing(url);
    if hrefs.None? {
      return true, data0, visited0, fetched0, source0, [], all0, examined0;
    }
    var links := GatherLinks(hrefs.value, visited0);
    failed := false;
    ghost var added, stop;
    data, visited, fetched, source, added, stop := ScrapeLinks(links, maxN, join, detail, data0, visited0,
                                                               fetched0, source0);
    run, all, examined := links, all0 + links, |all0| + stop;
    CrawlOn(all0, links, all, HttpOrJoined(join), Anything(), true, detail, CompleteOnly, maxN,
            data0, visited0, fetched0, examined0, stop, added, data, visited, fetched, examined);
  }

  /** `scrape_all`. `listing` gives the hrefs of a list page's anchors (None when the
      request raised), `join` is `urljoin` on the site root and `detail` the item
      `scrape_one` returns for a URL (None when it raised). The ghost `requested` lists
      the list pages requested and `runs` the links gathered on each one fetched;
      `fetched` the detail pages opened; item i came from `fetched[source[i]]`. Pages
      are requested while fewer than maxN items are held, up to MAX_PAGES, until a
      request raises. The detail pages opened are what `Opened` lists for the first
      `examined` links of the runs, and the items those `KeepAll` keeps of them. */
  method ScrapeAll(base: string, maxN: nat, listing: string -> Option<seq<string>>,
                   join: string -> string, detail: string -> Option<Record>)
    returns (data: seq<Record>, ghost requested: seq<string>, ghost runs: seq<seq<string>>,
             ghost fetched: seq<string>, ghost source: seq<nat>, ghost examined: nat)
    ensures |requested| <= MAX_PAGES
    ensures forall i :: 0 <= i < |requested| ==> requested[i] == PlainPageUrl(base, i + 1)
    ensures |requested| < MAX_PAGES && |data| < maxN ==>
              |requested| > 0 && listing(requested[|requested| - 1]).None?
    ensures || RunsOf(requested, runs, listing, join)
            || (|requested| > 0 && RunsOf(requested[..|requested| - 1], runs, listing, join)
                && listing(requested[|requested| - 1]).None?)
    ensures Crawled(Flatten(runs), HttpOrJoined(join), Anything(), true, detail, CompleteOnly, maxN,
                    data, SetOf(fetched), fetched, examined)
    ensures |data| <= maxN
    ensures forall i :: 0 <= i < |data| ==> Complete(data[i])
    ensures Distinct(fetched)
    ensures Sourced(data, fetched, source, detail)
  {
    var visited;
    ghost var ran;
    data, visited, requested, ran, runs, fetched, source, examined := ListPages(base, maxN, listing, join, detail);
    ScanEnds(base, maxN, listing, join, detail, requested, ran, runs, data, visited, fetched, source, examined);
  }

  /** The page loop of `scrape_all`: list pages are requested from the first on until
      the cap, the last page or a request that raises; `ran` are the pages whose links
      were gathered into `runs`. */
  method ListPages(base: string, maxN: nat, listing: string -> Option<seq<string>>, join: string -> string,
                   detail: string -> Option<Record>)
    returns (data: seq<Record>, visited: set<string>, ghost requested: seq<string>, ghost ran: seq<string>,
             ghost runs: seq<seq<string>>, ghost fetched: seq<string>, ghost source: seq<nat>,
             ghost examined: nat)
    ensures Stopped(base, maxN, listing, join, detail, requested, ran, runs, data, visited, fetched, source,
                    examined)
  {
    data, visited, requested, runs, fetched, source, examined := [], {}, [], [], [], [], 0;
    CrawlStart(HttpOrJoined(join), Anything(), true, detail, CompleteOnly, maxN);
    var page := 1;
    while |data| < maxN && page <= MAX_PAGES
      invariant 1 <= page <= MAX_PAGES + 1 && |requested| == page - 1
      invariant Scanned(base, maxN, listing, join, detail, requested, runs, data, visited, fetched, source,
                        examined)
      decreases MAX_PAGES + 1 - page
    {
      ghost var before := requested;
      var failed;
      failed, data, visited, requested, runs, fetched, source, examined :=
        ListPage(base, page, maxN, listing, join, detail, data, visited, requested, runs, fetched, source,
                 examined);
      if failed {
        // the loop is left, and nothing but the return follows it
        ran := before;
        return;
      }
      page := page + 1;
    }
    ran := requested;
  }

  /** How the page loop of `scrape_all` has ended: the runs of the pages `ran` are
      recorded, and either every page requested was fetched and the loop stopped at the
      cap or after the last page, or the last one requested raised. */
  ghost predicate Stopped(base: string, maxN: nat, listing: string -> Option<seq<string>>,
                          join: string -> string, detail: string -> Option<Record>, requested: seq<string>,
                          ran: seq<string>, runs: seq<seq<string>>, data: seq<Record>, visited: set<string>,
                          fetched: seq<string>, source: seq<nat>, examined: nat) {
    && Scanned(base, maxN, listing, join, detail, ran, runs, data, visited, fetched, source, examined)
    && |requested| <= MAX_PAGES && requested == PlainPages(base, |requested|)
    && (|| (requested == ran && (|requested| == MAX_PAGES || |data| >= maxN))
        || (|requested| > 0 && requested == ran + [PlainPageUrl(base, |requested|)]
            && listing(PlainPageUrl(base, |requested|)).None?))
  }

  /** What `scrape_all` has done after the list pages `requested` have each been
      fetched: they are the pages from the first on by the plain rule, `runs` holds the
      links gathered on each, and the crawl has examined them. */
  ghost predicate Scanned(base: string, maxN: nat, listing: string -> Option<seq<string>>,
                          join: string -> string, detail: string -> Option<Record>, requested: seq<string>,
                          runs: seq<seq<string>>, data: seq<Record>, visited: set<string>,
                          fetched: seq<string>, source: seq<nat>, examined: nat) {
    && requested == PlainPages(base, |requested|)
    && Progress(data, maxN, fetched, source, visited, detail)
    && RunsOf(requested, runs, listing, join)
    && Crawled(Flatten(runs), HttpOrJoined(join), Anything(), true, detail, CompleteOnly, maxN,
               data, visited, fetched, examined)
  }

  /** One turn of the page loop of `scrape_all`: list page `page`, the one after those
      requested so far, is requested; `failed` when the request raised, and then only
      the request is recorded; otherwise the page's run of links joins `runs`. */
  method ListPage(base: string, page: nat, maxN: nat, listing: string -> Option<seq<string>>,
                  join: string -> string, detail: string -> Option<Record>,
                  data0: seq<Record>, visited0: set<string>, ghost requested0: seq<string>,
                  ghost runs0: seq<seq<string>>, ghost fetched0: seq<string>, ghost source0: seq<nat>,
                  ghost examined0: nat)
    returns (failed: bool, data: seq<Record>, visited: set<string>, ghost requested: seq<string>,
             ghost runs: seq<seq<string>>, ghost fetched: seq<string>, ghost source: seq<nat>,
             ghost examined: nat)
    requires page == |requested0| + 1 && |data0| < maxN
    requires Scanned(base, maxN, listing, join, detail, requested0, runs0, data0, visited0, fetched0, source0,
                     examined0)
    ensures requested == requested0 + [PlainPageUrl(base, page)]
    ensures requested == PlainPages(base, |requested|)
    ensures failed <==> listing(PlainPageUrl(base, page)).None?
    ensures failed ==> Scanned(base, maxN, listing, join, detail, requested0, runs, data, visited, fetched,
                               source, examined)
    ensures !failed ==> Scanned(base, maxN, listing, join, detail, requested, runs, data, visited, fetched,
                                source, examined)
  {
    var url := PlainPageUrl(base, page);
    requested := requested0 + [url];
    assert requested == PlainPages(base, |requested|) by {
      assert requested0 == PlainPages(base, |requested0|);
    }
    ghost var all := Flatten(runs0);
    assert visited0 == SetOf(Opened(all, HttpOrJoined(join), Anything(), true, {})) by {
      CrawledWhole(all, HttpOrJoined(join), Anything(), true, detail, CompleteOnly, maxN,
                   data0, visited0, fetched0, examined0);
    }
    ghost var run, all';
    failed, data, visited, fetched, source, run, all', examined :=
      ScrapePage(url, maxN, listing, join, detail, data0, visited0, fetched0, source0, all, examined0);
    if failed {
      runs := runs0;
    } else {
      RunsOfStep(requested0, runs0, listing, join, url, visited0, run);
      assert Flatten(runs0 + [run]) == all' by {
        FlattenStep(runs0, run);
      }
      runs := runs0 + [run];
    }
  }

  /** Where the page loop of `scrape_all` has stopped, what the function returns keeps
      every promise of `scrape_all`. */
  lemma ScanEnds(base: string, maxN: nat, listing: string -> Option<seq<string>>, join: string -> string,
                 detail: string -> Option<Record>, requested: seq<string>, ran: seq<string>,
                 runs: seq<seq<string>>, data: seq<Record>, visited: set<string>, fetched: seq<string>,
                 source: seq<nat>, examined: nat)
    requires Stopped(base, maxN, listing, join, detail, requested, ran, runs, data, visited, fetched, source,
                     examined)
    ensures |requested| <= MAX_PAGES
    ensures forall i :: 0 <= i < |requested| ==> requested[i] == PlainPageUrl(base, i + 1)
    ensures |requested| < MAX_PAGES && |data| < maxN ==>
              |requested| > 0 && listing(requested[|requested| - 1]).None?
    ensures || RunsOf(requested, runs, listing, join)
            || (|requested| > 0 && RunsOf(requested[..|requested| - 1], runs, listing, join)
                && listing(requested[|requested| - 1]).None?)
    ensures Crawled(Flatten(runs), HttpOrJoined(join), Anything(), true, detail, CompleteOnly, maxN,
                    data, SetOf(fetched), fetched, examined)
    ensures |data| <= maxN
    ensures forall i :: 0 <= i < |data| ==> Complete(data[i])
    ensures Distinct(fetched)
    ensures Sourced(data, fetched, source, detail)
  {
    PlainPagesAt(base, requested);
    if requested != ran {
      assert requested[..|requested| - 1] == ran;
    }
  }
}
