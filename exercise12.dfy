/** The Selenium scraper of exercise 1-2 (Final_Answer/Exercise_for_Pool/python/1-2.py):
    its address split with three ordered building patterns, the SSL rule, the e-mail
    blacklist, the listing-link filter and the record accumulator. */
module Exercise12 {
  import opened Text
  import opened Address
  import opened Scraping

  // ---------------------------------------------------------------------------------
  // split_address

  /** The keyword alternatives of the first building pattern. */
  const BUILDING_KEYWORDS: seq<string> := [
    "ビル", "タワー", "ハイツ", "マンション", "アパート", "ビルディング", "プラザ", "センター",
    "BLDG", "Bldg", "GATE", "ビレッジ", "コート", "レジデンス", "パーク", "スクエア", "テラス",
    "荘", "館", "ハウス"
  ]

  /** The three building patterns, in the order they are tried. */
  const RULES: seq<Pattern> := [KeywordRun(LettersDigitsSpace, BUILDING_KEYWORDS), RunDigitsMark, DigitsMark]

  /** The building block of `split_address`, run on the whitespace-free text after the
      city: the first pattern that matches gives the building (stripped), the stripped
      text before it the street; with no building the whole stripped text is the street.
      Stripping and the final whitespace removal change nothing on this text, so the
      block is exactly the shared building search. */
  function BuildingBlock(remaining: string): (r: (string, string))
    requires NoSpace(remaining)
    ensures r == SplitTail(RULES, remaining)
  {
    if remaining == "" then ("", "")
    else
      var found := FindBuilding(RULES, remaining, 0);
      var cut := if found.Some? then found.value.start else 0;
      StrippedPieces(remaining, cut);
      var street := if found.Some? then Strip(remaining[..cut]) else "";
      var building := if found.Some? then Strip(remaining[cut..]) else "";
      var street := if building == "" then Strip(remaining) else street;
      (street, RemoveSpace(building))
  }

  /** Stripping either side of a cut of whitespace-free text changes nothing. */
  lemma StrippedPieces(s: string, cut: nat)
    requires NoSpace(s) && cut <= |s|
    ensures Strip(s[..cut]) == s[..cut] && Strip(s[cut..]) == s[cut..] && Strip(s) == s
    ensures RemoveSpace(s[cut..]) == s[cut..]
  {
    assert NoSpace(s[..cut]) && NoSpace(s[cut..]);
    StripOfNoSpace(s[..cut]);
    StripOfNoSpace(s[cut..]);
    StripOfNoSpace(s);
    RemoveSpaceOfNoSpace(s[cut..]);
  }

  /** `split_address` as the script writes it. It is the shared split with this
      script's three patterns, so the round trip and the prefecture, city and building
      rules proved for the shared split hold for it. */
  function SplitAddress(full: string): (r: Parts)
    ensures r == Split(RULES, full)
  {
    if full == "" then EMPTY_PARTS
    else
      var a := RemoveSpace(full);
      var prefecture := PrefectureOf(a);
      var remaining := a[|prefecture|..];
      var city := remaining[..CityEnd(remaining)];
      var rest := remaining[|city|..];
      assert NoSpace(rest);
      var (street, building) := BuildingBlock(rest);
      Parts(prefecture, city, street, building)
  }

  // ---------------------------------------------------------------------------------
  // check_ssl

  /** `check_ssl`: the explicit empty-URL test is subsumed by the prefix test. */
  function CheckSsl(url: string): (ssl: bool)
    ensures ssl <==> StartsWith(url, "https://")
    ensures ssl <==> HttpsGuard(url)
  {
    if url == "" then false
    else if StartsWith(url, "https://") then true
    else false
  }

  // ---------------------------------------------------------------------------------
  // extract_email

  const EMAIL_BLACKLIST: seq<string> := [".jpg", ".png", ".gif", "example.com", "test.com", "dummy"]

  /** A candidate the filter keeps: its lower-case form holds no blacklisted piece. */
  predicate Acceptable(m: string) {
    !ContainsAny(AsciiLower(m), EMAIL_BLACKLIST)
  }

  /** The index of the first acceptable candidate at or after from. */
  function FirstAcceptableFrom(ms: seq<string>, from: nat): (r: Option<nat>)
    requires from <= |ms|
    ensures r.Some? ==> from <= r.value < |ms| && Acceptable(ms[r.value])
    ensures r.Some? ==> forall k :: from <= k < r.value ==> !Acceptable(ms[k])
    ensures r.None? ==> forall k :: from <= k < |ms| ==> !Acceptable(ms[k])
    decreases |ms| - from
  {
    if from == |ms| then None
    else if Acceptable(ms[from]) then Some(from)
    else FirstAcceptableFrom(ms, from + 1)
  }

  /** The address the filter returns: the first acceptable candidate, or "". */
  function FirstAcceptable(ms: seq<string>): (e: string)
    ensures e == "" || Acceptable(e)
  {
    match FirstAcceptableFrom(ms, 0)
    case None => ""
    case Some(k) => ms[k]
  }

  /** The loop of `extract_email` over the candidates `re.findall` produced. */
  method ExtractEmail(candidates: seq<string>) returns (email: string)
    ensures email == FirstAcceptable(candidates)
    ensures (forall k :: 0 <= k < |candidates| ==> !Acceptable(candidates[k])) ==> email == ""
    ensures email != "" ==> exists k :: 0 <= k < |candidates| && email == candidates[k]
                                        && Acceptable(email)
                                        && forall m :: 0 <= m < k ==> !Acceptable(candidates[m])
  {
    var i := 0;
    while i < |candidates|
      invariant 0 <= i <= |candidates|
      invariant forall m :: 0 <= m < i ==> !Acceptable(candidates[m])
      invariant FirstAcceptableFrom(candidates, 0) == FirstAcceptableFrom(candidates, i)
    {
      var blacklisted := HasAnyKeyword(AsciiLower(candidates[i]), EMAIL_BLACKLIST);
      if !blacklisted {
        return candidates[i];
      }
      i := i + 1;
    }
    return "";
  }

  // ---------------------------------------------------------------------------------
  // Listing links

  const SCHEME := "https://"
  const HOST_NAME := "r.gnavi.co.jp"
  const HOST := HOST_NAME + "/"

  /** `https://r.gnavi.co.jp/`, the prefix every shop link must have. */
  const LIST_PREFIX := SCHEME + HOST

  /** The two hrefs the filter rejects by name: the top page and the Tokyo area page. */
  const NOT_SHOPS: seq<string> := [LIST_PREFIX, LIST_PREFIX + "tokyo/"]

  /** What a queued restaurant URL looks like. */
  predicate ListingUrl(u: string) {
    StartsWith(u, LIST_PREFIX) && '?' !in u && EndsWith(u, "/") && Count(u, '/') <= 4
  }

  /** The part of a URL before its query keeps the site prefix, which has no '?'. */
  lemma CleanKeepsPrefix(h: string)
    requires StartsWith(h, LIST_PREFIX)
    ensures StartsWith(BeforeFirst(h, '?'), LIST_PREFIX)
    ensures Count(BeforeFirst(h, '?'), '/') <= Count(h, '/')
  {
    var clean := BeforeFirst(h, '?');
    assert clean[..|LIST_PREFIX|] == h[..|LIST_PREFIX|];
    assert clean == h[..|clean|];
    CountPrefix(h, |clean|, '/');
  }

  /** The test the loop applies to one href, as written: the raw href is checked
      against the excluded pages and the visited set, and the URL cut at '?' is what is
      queued and recorded. The result is the URL queued, if any. */
  function AdmitAsWritten(href: Option<string>, visited: set<string>): Option<string>
  {
    match href
    case None => None
    case Some(h) =>
      if h != "" && StartsWith(h, LIST_PREFIX) && Count(h, '/') <= 4
         && h !in NOT_SHOPS && h !in visited
      then
        var clean := BeforeFirst(h, '?');
        if EndsWith(clean, "/") then Some(clean) else None
      else None
  }

  /** What the test lets through is a listing page URL, cut from the href at '?'. */
  lemma AdmittedAsWrittenListing(href: Option<string>, visited: set<string>)
    ensures var r := AdmitAsWritten(href, visited);
            r.Some? ==> ListingUrl(r.value) && href.Some? && r.value == BeforeFirst(href.value, '?')
  {
    if href.Some? && StartsWith(href.value, LIST_PREFIX) {
      CleanKeepsPrefix(href.value);
    }
  }

  /** The site prefix holds three slashes. */
  lemma PrefixSlashes()
    ensures Count(LIST_PREFIX, '/') == 3
  {
    SchemeSlashes();
    HostSlashes();
    CountAppend(SCHEME, HOST, '/');
  }

  lemma SchemeSlashes()
    ensures Count(SCHEME, '/') == 2
  {
  }

  lemma HostSlashes()
    ensures Count(HOST, '/') == 1
  {
    SlashAfterName(HOST_NAME);
  }

  /** A name without '/' followed by one '/' holds one slash. */
  lemma SlashAfterName(name: string)
    requires '/' !in name
    ensures Count(name + "/", '/') == 1
  {
    CountAppend(name, "/", '/');
    CountAbsent(name, '/');
  }

  /** A shop URL with a query string has four slashes: three in the site prefix, one
      after the shop id, none in the id or the query. */
  lemma ShopUrlSlashes(id: string, query: string)
    requires '/' !in id && '/' !in query
    ensures Count(LIST_PREFIX + id + "/?" + query, '/') == 4
  {
    PrefixSlashes();
    assert LIST_PREFIX + id + "/?" + query == LIST_PREFIX + id + "/" + ("?" + query);
    CountAppend(LIST_PREFIX + id + "/", "?" + query, '/');
    CountAppend(LIST_PREFIX + id, "/", '/');
    CountAppend(LIST_PREFIX, id, '/');
    CountAbsent(id, '/');
    CountAbsent("?" + query, '/');
  }

  /** As written, a shop URL already visited is queued again when the page links to it
      with a query string: the visited test sees the raw href, which was never recorded.
      The visited set holds at most the shop URL itself. */
  lemma AdmitAsWrittenRequeues(id: string, query: string, visited: set<string>)
    requires id != "" && '/' !in id && '?' !in id && '/' !in query
    requires visited <= {LIST_PREFIX + id + "/"}
    ensures var shop := LIST_PREFIX + id + "/";
            AdmitAsWritten(Some(shop + "?" + query), visited) == Some(shop)
  {
    var shop := LIST_PREFIX + id + "/";
    var h := shop + "?" + query;
    assert h == LIST_PREFIX + id + "/?" + query;
    ShopUrlSlashes(id, query);
    assert h[|shop|] == '?';
    assert h !in NOT_SHOPS by {
      assert '?' !in NOT_SHOPS[0] && '?' !in NOT_SHOPS[1];
    }
    assert h != shop;
    assert '?' !in shop by {
      assert '?' !in LIST_PREFIX;
    }
    BeforeFirstAt(shop, '?', query);
    assert StartsWith(h, LIST_PREFIX) by {
      assert h[..|LIST_PREFIX|] == LIST_PREFIX;
    }
    assert EndsWith(shop, "/");
  }

  /** As written, the excluded top page is queued when a page links to it with a query
      string: the exclusion test sees the raw href. */
  lemma AdmitAsWrittenQueuesTopPage(query: string)
    requires '/' !in query
    ensures AdmitAsWritten(Some(LIST_PREFIX + "?" + query), {}) == Some(LIST_PREFIX)
    ensures LIST_PREFIX in NOT_SHOPS
  {
    var h := LIST_PREFIX + "?" + query;
    ShopUrlSlashesTop(query);
    assert h[|LIST_PREFIX|] == '?';
    assert h !in NOT_SHOPS by {
      assert '?' !in NOT_SHOPS[0] && '?' !in NOT_SHOPS[1];
    }
    assert '?' !in LIST_PREFIX;
    BeforeFirstAt(LIST_PREFIX, '?', query);
    assert EndsWith(LIST_PREFIX, "/") by {
      assert LIST_PREFIX[|LIST_PREFIX| - 1..] == HOST[|HOST| - 1..];
    }
    assert StartsWith(h, LIST_PREFIX) by {
      assert h[..|LIST_PREFIX|] == LIST_PREFIX;
    }
  }

  lemma ShopUrlSlashesTop(query: string)
    requires '/' !in query
    ensures Count(LIST_PREFIX + "?" + query, '/') == 3
  {
    PrefixSlashes();
    assert LIST_PREFIX + "?" + query == LIST_PREFIX + ("?" + query);
    CountAppend(LIST_PREFIX, "?" + query, '/');
    CountAbsent("?" + query, '/');
  }

  /** The filter with the exclusion and the visited test applied to the URL that is
      actually queued: a URL is queued only if it is a listing URL, not an excluded
      page and not visited. */
  function Admit(href: Option<string>, visited: set<string>): (r: Option<string>)
    ensures r.Some? ==> ListingUrl(r.value) && r.value !in NOT_SHOPS && r.value !in visited
    ensures r.Some? ==> href.Some? && r.value == BeforeFirst(href.value, '?')
  {
    match href
    case None => None
    case Some(h) =>
      if h != "" && StartsWith(h, LIST_PREFIX) && Count(h, '/') <= 4 then
        CleanKeepsPrefix(h);
        var clean := BeforeFirst(h, '?');
        if EndsWith(clean, "/") && clean !in NOT_SHOPS && clean !in visited then Some(clean) else None
      else None
  }

  /** On links without a query string the corrected filter is the filter as written. */
  lemma AdmitRefinesAsWritten(href: Option<string>, visited: set<string>)
    ensures href.Some? && '?' !in href.value ==> AdmitAsWritten(href, visited) == Admit(href, visited)
  {
    if href.Some? && '?' !in href.value {
      assert BeforeFirst(href.value, '?') == href.value;
    }
  }

  /** u is one of the hrefs with its query string cut off. */
  predicate CleanedFrom(u: string, hrefs: seq<Option<string>>) {
    exists i :: 0 <= i < |hrefs| && hrefs[i].Some? && u == BeforeFirst(hrefs[i].value, '?')
  }

  /** A URL cleaned from some of the hrefs is cleaned from all of them. */
  lemma CleanedFromPrefix(u: string, hrefs: seq<Option<string>>, n: nat)
    requires n <= |hrefs| && CleanedFrom(u, hrefs[..n])
    ensures CleanedFrom(u, hrefs)
  {
    var i :| 0 <= i < n && hrefs[..n][i].Some? && u == BeforeFirst(hrefs[..n][i].value, '?');
    assert hrefs[i] == hrefs[..n][i];
  }

  /** The URLs the link loop of one search page queues as written, from `hrefs` in
      document order and the visited set `visited0`: each URL `AdmitAsWritten` lets
      through against the visited set grown by the URLs queued before it. Every one is
      a listing URL, at most one per href. */
  function QueuedAsWritten(hrefs: seq<Option<string>>, visited0: set<string>): (urls: seq<string>)
    ensures |urls| <= |hrefs|
    decreases |hrefs|
  {
    if hrefs == [] then []
    else
      var n := |hrefs| - 1;
      var before := QueuedAsWritten(hrefs[..n], visited0);
      match AdmitAsWritten(hrefs[n], visited0 + SetOf(before))
      case None => before
      case Some(u) => before + [u]
  }

  /** Every URL the loop queues is a listing page URL. */
  lemma {:induction false} QueuedAsWrittenListing(hrefs: seq<Option<string>>, visited0: set<string>)
    ensures var urls := QueuedAsWritten(hrefs, visited0);
            forall j :: 0 <= j < |urls| ==> ListingUrl(urls[j])
    decreases |hrefs|
  {
    if hrefs != [] {
      var n := |hrefs| - 1;
      var before := QueuedAsWritten(hrefs[..n], visited0);
      QueuedAsWrittenListing(hrefs[..n], visited0);
      AdmittedAsWrittenListing(hrefs[n], visited0 + SetOf(before));
    }
  }

  /** Every URL the loop queues is cut from one of the hrefs. */
  lemma {:induction false} QueuedFromHrefs(hrefs: seq<Option<string>>, visited0: set<string>)
    ensures var urls := QueuedAsWritten(hrefs, visited0);
            forall j :: 0 <= j < |urls| ==> CleanedFrom(urls[j], hrefs)
    decreases |hrefs|
  {
    if hrefs != [] {
      var n := |hrefs| - 1;
      var before := QueuedAsWritten(hrefs[..n], visited0);
      var admitted := AdmitAsWritten(hrefs[n], visited0 + SetOf(before));
      var urls := QueuedAsWritten(hrefs, visited0);
      assert urls == if admitted.Some? then before + [admitted.value] else before;
      QueuedFromHrefs(hrefs[..n], visited0);
      forall j | 0 <= j < |urls| ensures CleanedFrom(urls[j], hrefs) {
        if j < |before| {
          assert urls[j] == before[j];
          CleanedFromPrefix(before[j], hrefs, n);
        } else {
          assert hrefs[n].Some? && urls[j] == BeforeFirst(hrefs[n].value, '?');
        }
      }
    }
  }

  /** The same loop with the corrected filter `Admit`. The URLs it queues are distinct
      listing URLs, none of them an excluded page or in the visited set. */
  function Queued(hrefs: seq<Option<string>>, visited0: set<string>): (urls: seq<string>)
    ensures Distinct(urls)
    ensures forall j :: 0 <= j < |urls| ==> ListingUrl(urls[j]) && urls[j] !in NOT_SHOPS && urls[j] !in visited0
    decreases |hrefs|
  {
    if hrefs == [] then []
    else
      var n := |hrefs| - 1;
      var before := Queued(hrefs[..n], visited0);
      match Admit(hrefs[n], visited0 + SetOf(before))
      case None => before
      case Some(u) =>
        InSetOf(before, u);
        AppendKeepsDistinctUrls(before, u);
        before + [u]
  }

  /** On hrefs without a query string the loop as written queues what the corrected one
      queues. */
  lemma {:induction false} QueuedAgree(hrefs: seq<Option<string>>, visited0: set<string>)
    requires forall i :: 0 <= i < |hrefs| && hrefs[i].Some? ==> '?' !in hrefs[i].value
    ensures QueuedAsWritten(hrefs, visited0) == Queued(hrefs, visited0)
    decreases |hrefs|
  {
    if hrefs != [] {
      var n := |hrefs| - 1;
      QueuedAgree(hrefs[..n], visited0);
      AdmitRefinesAsWritten(hrefs[n], visited0 + SetOf(Queued(hrefs[..n], visited0)));
    }
  }

  /** As written, two links to one shop with different query strings queue the shop
      twice: the visited test sees the raw href, while the cut URL is what is recorded. */
  lemma QueuedTwiceAsWritten(id: string, q1: string, q2: string)
    requires id != "" && '/' !in id && '?' !in id && '/' !in q1 && '/' !in q2 && q1 != q2
    ensures var shop := LIST_PREFIX + id + "/";
            QueuedAsWritten([Some(shop + "?" + q1), Some(shop + "?" + q2)], {}) == [shop, shop]
  {
    var shop := LIST_PREFIX + id + "/";
    var hrefs := [Some(shop + "?" + q1), Some(shop + "?" + q2)];
    assert hrefs[..0] == [];
    AdmitAsWrittenRequeues(id, q1, {});
    assert {} + SetOf([]) == {};
    QueuedAsWrittenStep(hrefs, 0, {}, [], {}, Some(shop));
    assert QueuedAsWritten(hrefs[..1], {}) == [shop];
    assert SetOf([shop]) == {shop} by {
      SetOfStep([], shop);
      assert [] + [shop] == [shop];
    }
    AdmitAsWrittenRequeues(id, q2, {shop});
    QueuedAsWrittenStep(hrefs, 1, {}, [shop], {shop}, Some(shop));
    assert hrefs[..2] == hrefs;
  }

  /** As written, a link to the top page with a query string queues the top page. */
  lemma QueuedTopPageAsWritten(query: string)
    requires '/' !in query
    ensures QueuedAsWritten([Some(LIST_PREFIX + "?" + query)], {}) == [LIST_PREFIX]
    ensures LIST_PREFIX in NOT_SHOPS
  {
    AdmitAsWrittenQueuesTopPage(query);
    assert [Some(LIST_PREFIX + "?" + query)][..0] == [];
  }

  /** One more href: the URL the test lets through against the visited set, which holds
      the URLs queued before it, is queued after them and joins the visited set. */
  lemma {:induction false} QueuedAsWrittenStep(hrefs: seq<Option<string>>, i: nat, visited0: set<string>,
                                               urls: seq<string>, visited: set<string>,
                                               admitted: Option<string>)
    requires i < |hrefs| && urls == QueuedAsWritten(hrefs[..i], visited0)
    requires visited == visited0 + SetOf(urls) && admitted == AdmitAsWritten(hrefs[i], visited)
    ensures QueuedAsWritten(hrefs[..i + 1], visited0) == if admitted.Some? then urls + [admitted.value] else urls
    ensures admitted.Some? ==> visited + {admitted.value} == visited0 + SetOf(urls + [admitted.value])
  {
    assert hrefs[..i + 1][..i] == hrefs[..i];
    if admitted.Some? {
      SetOfStep(urls, admitted.value);
    }
  }

  /** The link loop of one search page, as written: every href in document order, each
      queued URL recorded as visited at once. */
  method CollectLinks(hrefs: seq<Option<string>>, visited0: set<string>)
    returns (urls: seq<string>, visited: set<string>)
    ensures urls == QueuedAsWritten(hrefs, visited0)
    ensures visited == visited0 + SetOf(urls)
  {
    urls := [];
    visited := visited0;
    for i := 0 to |hrefs|
      invariant urls == QueuedAsWritten(hrefs[..i], visited0)
      invariant visited == visited0 + SetOf(urls)
    {
      var admitted := AdmitAsWritten(hrefs[i], visited);
      QueuedAsWrittenStep(hrefs, i, visited0, urls, visited, admitted);
      if admitted.Some? {
        urls := urls + [admitted.value];
        visited := visited + {admitted.value};
      }
    }
    assert hrefs[..|hrefs|] == hrefs;
  }

  // ---------------------------------------------------------------------------------
  // Detail page and accumulator

  /** What `scrape_restaurant_detail` reads off a shop page: the first h1, the first
      phone match, the cleaned first mailto address ("" when there is none), the e-mail
      candidates of the page text, the longest address match and the official URL. */
  datatype DetailPage = DetailPage(
    name: string, tel: string, mailto: string, emailCandidates: seq<string>,
    address: string, officialUrl: string)

  /** The record `scrape_restaurant_detail` returns for a page: the address split by
      `split_address`, the mailto address or else the first acceptable candidate, and the
      SSL flag of the official URL. */
  function RecordOf(p: DetailPage): (r: Record)
    ensures r.prefecture + r.city + r.street + r.building == RemoveSpace(p.address)
    ensures PartsNoSpace(Parts(r.prefecture, r.city, r.street, r.building))
    ensures PartsNoSpace(Parts(r.prefecture, r.city, r.street, r.building))
    ensures Parts(r.prefecture, r.city, r.street, r.building) == SplitAddress(p.address)
    ensures r.email == (if p.mailto != "" then p.mailto else FirstAcceptable(p.emailCandidates))
    ensures r.email != "" && r.email != p.mailto ==> p.mailto == "" && Acceptable(r.email)
    ensures r.url == p.officialUrl && (r.ssl <==> HttpsGuard(r.url))
    ensures r.name == p.name && r.tel == p.tel
  {
    var parts := SplitAddress(p.address);
    var email := if p.mailto != "" then p.mailto else FirstAcceptable(p.emailCandidates);
    Record(p.name, p.tel, email, parts.prefecture, parts.city, parts.street, parts.building,
           p.officialUrl, CheckSsl(p.officialUrl))
  }

  /** The record scraped from a URL: the record of its page (`pageOf`, None when opening
      or reading it raised). */
  function Scraped(pageOf: string -> Option<DetailPage>): string -> Option<Record> {
    u => if pageOf(u).Some? then Some(RecordOf(pageOf(u).value)) else None
  }

  /** What the accumulator keeps true: the records are bounded, complete and distinct by
      name, and each is the record scraped from a fetched URL. */
  predicate Accumulated(data: seq<Record>, maxRecords: nat, fetched: seq<string>, source: seq<nat>,
                        detail: string -> Option<Record>) {
    Kept(data, maxRecords) && Sourced(data, fetched, source, detail)
  }

  /** Every URL opened is a listing URL. */
  predicate AllListing(fetched: seq<string>) {
    forall k :: 0 <= k < |fetched| ==> ListingUrl(fetched[k])
  }

  /** The body of the inner loop for one queued URL, below the cap: its detail page is
      opened, and the record is kept when it has a name, a city and a street and its name
      is new. */
  method ScrapeOne(u: string, maxRecords: nat, detail: string -> Option<Record>,
                   data0: seq<Record>, ghost fetched0: seq<string>, ghost source0: seq<nat>)
    returns (data: seq<Record>, ghost fetched: seq<string>, ghost source: seq<nat>)
    requires Accumulated(data0, maxRecords, fetched0, source0, detail) && |data0| < maxRecords
    ensures Accumulated(data, maxRecords, fetched, source, detail)
    ensures fetched == fetched0 + [u]
    ensures var found := detail(u);
            data == if found.Some? && NewComplete(data0, found.value) then data0 + [found.value] else data0
  {
    data, fetched, source := FetchAndKeep(u, detail, data0, fetched0, source0);
  }

  /** The inner loop of `scrape_restaurant_list` over the URLs one search page queued:
      each is opened in turn, with no visited test, until maxRecords records are held.
      The URLs opened are the first `stop` queued ones, all of them unless the cap was
      reached, and the records are what `KeepAll` keeps from them under the rule
      complete-and-new-name. */
  method ScrapeQueued(urls: seq<string>, maxRecords: nat, detail: string -> Option<Record>,
                      data0: seq<Record>, ghost fetched0: seq<string>, ghost source0: seq<nat>)
    returns (data: seq<Record>, ghost fetched: seq<string>, ghost source: seq<nat>, ghost stop: nat)
    requires Accumulated(data0, maxRecords, fetched0, source0, detail)
    ensures Accumulated(data, maxRecords, fetched, source, detail)
    ensures stop <= |urls| && (stop == |urls| || |data| >= maxRecords)
    ensures fetched == fetched0 + urls[..stop]
    ensures data == KeepAll(data0, urls[..stop], detail, NewComplete)
    ensures UnderCap(data0, urls[..stop], detail, NewComplete, maxRecords)
  {
    data, fetched, source := data0, fetched0, source0;
    var j := 0;
    while j < |urls|
      invariant j <= |urls|
      invariant Accumulated(data, maxRecords, fetched, source, detail)
      invariant fetched == fetched0 + urls[..j]
      invariant data == KeepAll(data0, urls[..j], detail, NewComplete)
      invariant UnderCap(data0, urls[..j], detail, NewComplete, maxRecords)
    {
      if |data| >= maxRecords {
        break;
      }
      var data', fetched', source' := ScrapeOne(urls[j], maxRecords, detail, data, fetched, source);
      KeepStep(data0, urls, j, detail, NewComplete, maxRecords, data, data');
      OpenedThrough(fetched0, urls, j);
      data, fetched, source := data', fetched', source';
      j := j + 1;
    }
    stop := j;
  }

  /** Listing URLs opened after listing URLs. */
  lemma ListingAppend(fetched: seq<string>, more: seq<string>)
    requires AllListing(fetched) && AllListing(more)
    ensures AllListing(fetched + more)
  {
    assert forall k :: |fetched| <= k < |fetched + more| ==> (fetched + more)[k] == more[k - |fetched|];
  }

  /** Run i holds the URLs that the link loop (`queue`) of search page i queued against
      the URLs queued on the pages before it. */
  ghost predicate RunsOf(pages: seq<string>, runs: seq<seq<string>>, linksOn: string -> seq<Option<string>>,
                         queue: (seq<Option<string>>, set<string>) -> seq<string>)
    decreases |pages|
  {
    && |runs| == |pages|
    && (pages != [] ==>
          var before := runs[..|runs| - 1];
          && RunsOf(pages[..|pages| - 1], before, linksOn, queue)
          && runs[|runs| - 1] == queue(linksOn(pages[|pages| - 1]), SetOf(Flatten(before))))
  }

  /** One more search page and its run. */
  lemma RunsOfStep(pages: seq<string>, s: nat, runs: seq<seq<string>>, linksOn: string -> seq<Option<string>>,
                   queue: (seq<Option<string>>, set<string>) -> seq<string>, run: seq<string>)
    requires s < |pages| && RunsOf(pages[..s], runs, linksOn, queue)
    requires run == queue(linksOn(pages[s]), SetOf(Flatten(runs)))
    ensures RunsOf(pages[..s + 1], runs + [run], linksOn, queue)
  {
    assert pages[..s + 1][..s] == pages[..s];
    assert (runs + [run])[..|runs|] == runs;
  }

  /** Two lists of distinct URLs with no URL in common join into one. */
  lemma JoinDistinct(a: seq<string>, b: seq<string>)
    requires Distinct(a) && Distinct(b)
    requires forall j :: 0 <= j < |b| ==> b[j] !in SetOf(a)
    ensures Distinct(a + b)
  {
    forall i, j | 0 <= i < j < |a + b| ensures (a + b)[i] != (a + b)[j] {
      if i < |a| <= j {
        InSetOf(a, (a + b)[i]);
        assert (a + b)[j] == b[j - |a|];
      }
    }
  }

  /** With the corrected filter no shop URL is queued twice over all the search pages,
      and no excluded page is queued. */
  lemma {:induction false} QueuedOnce(pages: seq<string>, runs: seq<seq<string>>,
                                      linksOn: string -> seq<Option<string>>)
    requires RunsOf(pages, runs, linksOn, Queued)
    ensures Distinct(Flatten(runs))
    ensures forall k :: 0 <= k < |Flatten(runs)| ==> Flatten(runs)[k] !in NOT_SHOPS
    decreases |pages|
  {
    if pages != [] {
      var before := runs[..|runs| - 1];
      var run := runs[|runs| - 1];
      QueuedOnce(pages[..|pages| - 1], before, linksOn);
      assert Flatten(runs) == Flatten(before) + run;
      JoinDistinct(Flatten(before), run);
      var all := Flatten(before) + run;
      forall k | 0 <= k < |all| ensures all[k] !in NOT_SHOPS {
        if k >= |Flatten(before)| {
          assert all[k] == run[k - |Flatten(before)|];
        }
      }
    }
  }

  /** One search page of `scrape_restaurant_list`, below the cap: its links are
      collected against the visited set, and the queued URLs, when there are any, are
      scraped; the crawl has then also examined them. */
  method ScrapeSearchPage(searchUrl: string, maxRecords: nat, linksOn: string -> seq<Option<string>>,
                          detail: string -> Option<Record>, data0: seq<Record>, visited0: set<string>,
                          ghost fetched0: seq<string>, ghost source0: seq<nat>, ghost seen0: set<string>,
                          ghost all0: seq<string>, ghost examined0: nat)
    returns (data: seq<Record>, visited: set<string>, ghost fetched: seq<string>, ghost source: seq<nat>,
             ghost seen: set<string>, ghost run: seq<string>, ghost all: seq<string>, ghost examined: nat)
    requires Accumulated(data0, maxRecords, fetched0, source0, detail) && |data0| < maxRecords
    requires AllListing(fetched0)
    requires Crawled(all0, AsIs(), Anything(), false, detail, NewComplete, maxRecords,
                     data0, seen0, fetched0, examined0)
    ensures Accumulated(data, maxRecords, fetched, source, detail) && AllListing(fetched)
    ensures run == QueuedAsWritten(linksOn(searchUrl), visited0) && visited == visited0 + SetOf(run)
    ensures all == all0 + run
    ensures Crawled(all, AsIs(), Anything(), false, detail, NewComplete, maxRecords,
                    data, seen, fetched, examined)
  {
    var urls;
    urls, visited := CollectLinks(linksOn(searchUrl), visited0);
    run, all := urls, all0 + urls;
    if urls == [] {
      CrawlEmpty(all0, all, AsIs(), Anything(), false, detail, NewComplete, maxRecords,
                 data0, seen0, fetched0, examined0);
      return data0, visited, fetched0, source0, seen0, run, all, examined0;
    }
    ghost var stop;
    data, fetched, source, stop := ScrapeQueued(urls, maxRecords, detail, data0, fetched0, source0);
    ghost var added := urls[..stop];
    seen := seen0 + SetOf(added);
    OpenedPlain(added, seen0);
    assert AllListing(added) by {
      QueuedAsWrittenListing(linksOn(searchUrl), visited0);
    }
    ListingAppend(fetched0, added);
    examined := |all0| + stop;
    CrawlOn(all0, urls, all, AsIs(), Anything(), false, detail, NewComplete, maxRecords,
            data0, seen0, fetched0, examined0, stop, added, data, seen, fetched, examined);
  }

  /** `scrape_restaurant_list`, with the links of each search page (`linksOn`) and the
      page of each shop URL (`pageOf`, None when opening or reading it raised) given by
      the browser. The search pages are taken in order until maxRecords records are
      held; the ghost `runs` lists the URLs queued on each, as written, against the URLs
      queued before. The detail pages opened (`fetched`) are the first `examined` queued
      URLs, all of them unless the cap was reached, and the records are those `KeepAll`
      keeps from them; record i came from `fetched[source[i]]`. */
  method ScrapeRestaurantList(searchUrls: seq<string>, maxRecords: nat,
                              linksOn: string -> seq<Option<string>>,
                              pageOf: string -> Option<DetailPage>)
    returns (data: seq<Record>, ghost runs: seq<seq<string>>, ghost fetched: seq<string>,
             ghost source: seq<nat>, ghost examined: nat)
    ensures |runs| <= |searchUrls| && (|runs| == |searchUrls| || |data| >= maxRecords)
    ensures RunsOf(searchUrls[..|runs|], runs, linksOn, QueuedAsWritten)
    ensures Crawled(Flatten(runs), AsIs(), Anything(), false, Scraped(pageOf), NewComplete, maxRecords,
                    data, SetOf(fetched), fetched, examined)
    ensures |data| <= maxRecords
    ensures forall i :: 0 <= i < |data| ==> Complete(data[i])
    ensures DistinctNames(data)
    ensures forall k :: 0 <= k < |fetched| ==> ListingUrl(fetched[k])
    ensures Sourced(data, fetched, source, Scraped(pageOf))
  {
    data, runs, fetched, source, examined := [], [], [], [], 0;
    var visited: set<string> := {};
    ghost var seen: set<string> := {};
    CrawlStart(AsIs(), Anything(), false, Scraped(pageOf), NewComplete, maxRecords);
    var s := 0;
    while s < |searchUrls|
      invariant s <= |searchUrls| && |runs| == s
      invariant RunsOf(searchUrls[..s], runs, linksOn, QueuedAsWritten)
      invariant visited == SetOf(Flatten(runs))
      invariant Accumulated(data, maxRecords, fetched, source, Scraped(pageOf)) && AllListing(fetched)
      invariant Crawled(Flatten(runs), AsIs(), Anything(), false, Scraped(pageOf), NewComplete, maxRecords,
                        data, seen, fetched, examined)
    {
      if |data| >= maxRecords {
        break;
      }
      ghost var run, all, examined';
      var visited';
      data, visited', fetched, source, seen, run, all, examined' :=
        ScrapeSearchPage(searchUrls[s], maxRecords, linksOn, Scraped(pageOf), data, visited, fetched, source, seen,
                         Flatten(runs), examined);
      RunsOfStep(searchUrls, s, runs, linksOn, QueuedAsWritten, run);
      FlattenStep(runs, run);
      SetOfAppend(Flatten(runs), run);
      runs, visited, examined := runs + [run], visited', examined';
      s := s + 1;
    }
  }

  /** As written, one search page that links to a shop twice with different query
      strings makes the crawl open the shop's page twice (below a cap the two visits
      cannot reach). */
  lemma OpensTwiceAsWritten(searchUrls: seq<string>, maxRecords: nat, linksOn: string -> seq<Option<string>>,
                            detail: string -> Option<Record>, id: string, q1: string, q2: string,
                            data: seq<Record>, runs: seq<seq<string>>, fetched: seq<string>, examined: nat)
    requires id != "" && '/' !in id && '?' !in id && '/' !in q1 && '/' !in q2 && q1 != q2
    requires |searchUrls| == 1 && maxRecords > 2
    requires linksOn(searchUrls[0]) == [Some(LIST_PREFIX + id + "/" + "?" + q1), Some(LIST_PREFIX + id + "/" + "?" + q2)]
    requires |runs| <= |searchUrls| && (|runs| == |searchUrls| || |data| >= maxRecords)
    requires RunsOf(searchUrls[..|runs|], runs, linksOn, QueuedAsWritten)
    requires Crawled(Flatten(runs), AsIs(), Anything(), false, detail, NewComplete, maxRecords,
                     data, SetOf(fetched), fetched, examined)
    ensures fetched == [LIST_PREFIX + id + "/", LIST_PREFIX + id + "/"]
  {
    var shop := LIST_PREFIX + id + "/";
    QueuedTwiceAsWritten(id, q1, q2);
    OpenedAll([shop, shop], maxRecords, detail, runs, searchUrls, linksOn, data, fetched, examined);
  }

  /** As written, a search page that links to the top page with a query string makes the
      crawl open the top page, which the filter means to exclude. */
  lemma OpensTopPageAsWritten(searchUrls: seq<string>, maxRecords: nat, linksOn: string -> seq<Option<string>>,
                              detail: string -> Option<Record>, query: string,
                              data: seq<Record>, runs: seq<seq<string>>, fetched: seq<string>, examined: nat)
    requires '/' !in query
    requires |searchUrls| == 1 && maxRecords > 1
    requires linksOn(searchUrls[0]) == [Some(LIST_PREFIX + "?" + query)]
    requires |runs| <= |searchUrls| && (|runs| == |searchUrls| || |data| >= maxRecords)
    requires RunsOf(searchUrls[..|runs|], runs, linksOn, QueuedAsWritten)
    requires Crawled(Flatten(runs), AsIs(), Anything(), false, detail, NewComplete, maxRecords,
                     data, SetOf(fetched), fetched, examined)
    ensures fetched == [LIST_PREFIX] && LIST_PREFIX in NOT_SHOPS
  {
    QueuedTopPageAsWritten(query);
    OpenedAll([LIST_PREFIX], maxRecords, detail, runs, searchUrls, linksOn, data, fetched, examined);
  }

  /** With one search page whose queue is `run`, shorter than the cap, the crawl opens
      exactly `run`. */
  lemma OpenedAll(run: seq<string>, maxRecords: nat, detail: string -> Option<Record>,
                  runs: seq<seq<string>>, searchUrls: seq<string>, linksOn: string -> seq<Option<string>>,
                  data: seq<Record>, fetched: seq<string>, examined: nat)
    requires |searchUrls| == 1 && |run| < maxRecords
    requires run == QueuedAsWritten(linksOn(searchUrls[0]), {})
    requires |runs| <= |searchUrls| && (|runs| == |searchUrls| || |data| >= maxRecords)
    requires RunsOf(searchUrls[..|runs|], runs, linksOn, QueuedAsWritten)
    requires Crawled(Flatten(runs), AsIs(), Anything(), false, detail, NewComplete, maxRecords,
                     data, SetOf(fetched), fetched, examined)
    ensures fetched == run
  {
    FlattenFirstRun(searchUrls, runs, linksOn, QueuedAsWritten);
    assert |data| <= |fetched| <= examined;
    assert Flatten(runs)[..examined] == run;
    OpenedPlain(run, {});
  }

  /** With a single search page, the links walked are that page's run, if it was read. */
  lemma FlattenFirstRun(searchUrls: seq<string>, runs: seq<seq<string>>,
                        linksOn: string -> seq<Option<string>>,
                        queue: (seq<Option<string>>, set<string>) -> seq<string>)
    requires |searchUrls| == 1 && |runs| <= 1
    requires RunsOf(searchUrls[..|runs|], runs, linksOn, queue)
    ensures Flatten(runs) == if runs == [] then [] else queue(linksOn(searchUrls[0]), {})
  {
    if runs != [] {
      assert runs[..0] == [];
      assert SetOf(Flatten(runs[..0])) == {};
      assert Flatten(runs) == [] + runs[0];
    }
  }

  /** Without a visited set and with every URL wanted as it is, the loop opens every URL. */
  lemma {:induction false} OpenedPlain(urls: seq<string>, seen: set<string>)
    ensures Opened(urls, AsIs(), Anything(), false, seen) == urls
    decreases |urls|
  {
    if urls != [] {
      OpenedPlain(urls[..|urls| - 1], seen);
      assert urls == urls[..|urls| - 1] + [urls[|urls| - 1]];
    }
  }
}
