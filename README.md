# Gnavi restaurant scrapers: a verified model

The repository is a family of batch scrapers for the gnavi (ぐるなび) restaurant directory. Each script does the same job:
- it walks the search-result pages;
- it opens each restaurant page;
- it reads the shop name (店舗名), phone number (電話番号), e-mail address (メールアドレス), address and official URL;
- it splits the address into 都道府県 / 市区町村 / 番地 / 建物名;
- it sets the SSL flag from the official URL;
- it keeps up to a fixed number of records, which it writes to CSV or MySQL.

This Dafny project models the deterministic logic of those scripts and proves what it promises.

The modules are:

- `Text`: string helpers with Python semantics. It covers `\s` (the Unicode whitespace set of `str.isspace`, U+3000 included), `str.strip`, `re.sub(r'\s+', '', s)`, `split('?')[0]`, `str.count`, ASCII `lower`, the list-comprehension filter and the decimal form of a page number.
- `Address`: the shared address splitter.
  - The prefecture is the first of the 47 listed names that prefixes the whitespace-free address.
  - The municipality is the shortest prefix of at least two characters ending in 市/区/町/村. This is the lazy `.+?[市区町村]`, where `.` excludes only the line feed.
  - The building columns come from patterns handed to `re.search`. These are tried in order, and each is decided by a leftmost-match scan.
  - Each regular expression is written out as character classes and scans; there is no general regex engine.
- `Scraping`: what several scripts share:
  - the record;
  - the duplicate-name test;
  - the "URL present and starts with `https://`" guard of `check_ssl`, with the TLS handshake as a parameter;
  - first-match selector chains;
  - the phone sanitiser `re.sub(r'[^0-9\-]', '', t)`;
  - the official-URL pick;
  - the two page-URL rules;
  - the provenance predicate `Sourced`, which ties every kept record to the URL it was scraped from.
- One module per script:
  - `Exercise12`: `Final_Answer/Exercise_for_Pool/python/1-2.py`;
  - `Scraper`: `Final_Answer/Exercise_for_Pool/python/scraper.py`;
  - `Six66`: `6.6.py`;
  - `Docker55`: `docker-scraping-project/5.5.py`;
  - `Mysql22`: the first copy in `2-2.py`;
  - `Pool22`: `Exercise_for_Pool/python/2-2.py`;
  - `Untitled`: `Untitled-1.py`;
  - `Inline44`: `4.4.py`;
  - `FixSsl`: `fix_ssl.py` and `fix_ssl_v2.py`.

How the model treats the outside world:
- The network, the browser and HTML parsing are parameters: function values from a URL to what a page offers, `None` when the request or parse raised.
- Every accumulator loop is a method tied to two reference folds in `Scraping`:
  - `Opened` lists the URLs a link loop opens;
  - `KeepAll` gives the records kept from them, each record accepted by the script's keep rule given the records held at that moment.
- The page loops of scraper.py, 6.6.py and both copies of 2-2.py are split the same way:
  - `ListPage` is one turn: it requests the next page and keeps the loop invariant `Scanned`;
  - in scraper.py, 6.6.py and Exercise_for_Pool/python/2-2.py, the loop itself is `ListPages`, which ends in `Stopped` (where and why the loop left);
  - the lemma `ScanEnds` turns that end state into the promises of the script's function.
- Every script keeps the record cap. Every kept record is what the detail oracle returned for a fetched URL. The other guarantees differ per script:
  - `Scraper` (scraper.py) and `Exercise12` (1-2.py): complete records with distinct names.
  - `Scraper`, `Mysql22`, `Pool22` and `Untitled`: a visited set, so no URL is fetched twice.
  - `Mysql22` and `Pool22`: complete records; two records may share a name.
  - `Six66` (6.6.py) and `Docker55` (5.5.py): named records only. There is no visited set and no name check, so a URL can be fetched twice and two records can share a name.
  - `Untitled`: every parsed record is kept.
  - `Exercise12`: the visited set is tested on the raw href but filled with the href cut at '?'. Two links to one shop with different query strings are both queued, so the fetched list can hold a URL twice (see Findings).
  - The page cap applies where the script has one: 10 pages in scraper.py, 6.6.py and 2-2.py, 30 in Exercise_for_Pool/python/2-2.py. 1-2.py requests each given search URL once. The crawls of 5.5.py and Untitled-1.py are bounded by a fuel parameter instead.
- The model is on `string = seq<char>`. E-mail candidates come from a pattern made of ASCII classes only, so ASCII lower-casing is exact for the blacklist test.

## Model

| member | source | states |
|---|---|---|
| Text.RemoveSpace | Final_Answer/Exercise_for_Pool/python/1-2.py:35 | `re.sub(r'\s+', '', s)` leaves no Python whitespace character and never lengthens the text |
| Text.RemoveSpaceAppend | Final_Answer/Exercise_for_Pool/python/1-2.py:35 | whitespace removal distributes over concatenation |
| Text.StripPieces | Untitled-1.py:82 | `str.strip` cuts only whitespace: the input is a whitespace head, the stripped text and a whitespace tail |
| Text.StripKeepsContent | Untitled-1.py:82 | stripping then removing whitespace equals removing whitespace |
| Text.BeforeFirst | Final_Answer/Exercise_for_Pool/python/1-2.py:312 | `split('?')[0]` is a prefix without '?' that is the whole text or is followed by '?' |
| Text.CountAppend | Final_Answer/Exercise_for_Pool/python/1-2.py:307 | `str.count` of a character is additive over concatenation |
| Text.AsciiLower | Final_Answer/Exercise_for_Pool/python/1-2.py:124 | `lower()` maps each ASCII capital to its small letter and keeps every other character, length preserved |
| Text.Filter | 6.6.py:215-218 | the comprehension keeps exactly the elements satisfying the test, all of which satisfy it |
| Text.FilterAppend | 6.6.py:215-218 | filtering a list extended by one element extends the filtered list by that element iff it passes |
| Text.NatToDecimal | Final_Answer/Exercise_for_Pool/python/scraper.py:258-260 | the f-string page number is a non-empty run of ASCII digits |
| Text.DecimalRoundTrip | Final_Answer/Exercise_for_Pool/python/scraper.py:258-260 | reading the decimal form back gives the page number |
| Address.FirstPrefix | Final_Answer/Exercise_for_Pool/python/1-2.py:38-39 | anchored alternation over literals picks the first listed alternative that prefixes the text, None iff none does |
| Address.PrefectureOf | Final_Answer/Exercise_for_Pool/python/1-2.py:38-45 | the prefecture is "" or a listed name prefixing the text; "" iff no listed name prefixes it; otherwise the first one listed |
| Address.ShortestPrefixEnd | Final_Answer/Exercise_for_Pool/python/1-2.py:48-49 | lazy `.+?[cls]`: the shortest prefix of length ≥ 2 ending in the class with no line feed before it, 0 iff there is none |
| Address.CityEnd | Final_Answer/Exercise_for_Pool/python/1-2.py:48-53 | the municipality match is the shortest prefix of length ≥ 2 ending in 市/区/町/村, 0 iff none |
| Address.GunAlternativeNeverDecides | Final_Answer/Exercise_for_Pool/python/1-2.py:48 | wherever the alternative `.+?郡.+?[町村]` matches, the first alternative has already matched no later, so the 郡 alternative never decides the city |
| Address.RunEnd | Final_Answer/Exercise_for_Pool/python/1-2.py:59 | a greedy class run from i: all of it in the class, stopping at the first character outside it |
| Address.RunWithin | Final_Answer/Exercise_for_Pool/python/1-2.py:59 | any class run from i lies within the greedy run |
| Address.Matches | Final_Answer/Exercise_for_Pool/python/1-2.py:59-61 | decides whether a building pattern matches at a position, exactly as the match predicate says |
| Address.KeywordRunDecided | Final_Answer/Exercise_for_Pool/python/1-2.py:59 | the keyword pattern matches at i iff a keyword starts inside the greedy letter run after its first character |
| Address.RunDigitsMarkDecided | Final_Answer/Exercise_for_Pool/python/1-2.py:60 | `[…]{2,}[0-9]+[階F号室]+` matches at i iff, past the first two characters of the greedy letter/digit/space run from i, a floor mark follows an ASCII digit |
| Address.DigitsMarkDecided | Final_Answer/Exercise_for_Pool/python/1-2.py:61 | `[0-9]+[階F号室]+` matches at i iff the digit run from i is non-empty and followed by a floor mark |
| Address.SearchFrom | Final_Answer/Exercise_for_Pool/python/1-2.py:65 | the first position from i where the pattern matches, or None when it matches nowhere from i |
| Address.Search | Final_Answer/Exercise_for_Pool/python/1-2.py:65 | `re.search` gives the leftmost match, None iff no position matches |
| Address.FindBuilding | Final_Answer/Exercise_for_Pool/python/1-2.py:64-69 | the hit names a rule in range and a start inside the text |
| Address.FindBuildingSound | Final_Answer/Exercise_for_Pool/python/1-2.py:64-69 | patterns are tried in order: a hit is the leftmost match of the first pattern that matches anywhere; None iff no pattern matches |
| Address.SplitTail | Final_Answer/Exercise_for_Pool/python/1-2.py:64-72 | street ++ building is the text after the city; the building is empty iff no pattern matches; otherwise the street ends at the match start |
| Address.SplitClean | Final_Answer/Exercise_for_Pool/python/1-2.py:38-72 | on whitespace-free text the four columns concatenate back to it and are the listed prefecture, the shortest city and the building cut |
| Address.Split | Final_Answer/Exercise_for_Pool/python/1-2.py:31-75 | empty input gives four empty columns; the columns contain no whitespace and concatenate to the address with all whitespace removed |
| Address.SplitPrefecture | Final_Answer/Exercise_for_Pool/python/1-2.py:38-45 | the prefecture column is "" or one of the 47 names prefixing the stripped address, the first listed such name, "" iff none |
| Address.SplitCity | Final_Answer/Exercise_for_Pool/python/1-2.py:48-53 | the city column prefixes the rest and is "" or its shortest 市区町村-ending prefix of length ≥ 2; "" iff none exists |
| Address.SplitBuilding | Final_Answer/Exercise_for_Pool/python/1-2.py:57-72 | a non-empty building starts at the leftmost match of the first matching pattern, earlier patterns matching nowhere; an empty one means no pattern matches the street |
| Address.TailBuilding | Final_Answer/Exercise_for_Pool/python/1-2.py:64-72 | the same ordered-pattern statement on the text after the city |
| Address.SplitKeywordBuilding | Final_Answer/Exercise_for_Pool/python/scraper.py:63-70 | with one keyword pattern, a non-empty building holds a listed keyword and starts at the leftmost match; an empty one means no match in the street |
| Address.KeywordTail | Final_Answer/Exercise_for_Pool/python/scraper.py:63-70 | the keyword-building statement on the text after the city |
| Scraping.HasName | Final_Answer/Exercise_for_Pool/python/1-2.py:341-346 | the duplicate loop answers true iff some stored record has the same name |
| Scraping.AppendKeepsDistinct | Final_Answer/Exercise_for_Pool/python/1-2.py:348-349 | appending a record whose name is new keeps names distinct |
| Scraping.KeepDistinct | Final_Answer/Exercise_for_Pool/python/1-2.py:334-349 | a scraped record is kept iff it exists, is complete (name, city, street) and its name is new; names stay distinct |
| Scraping.SourcedAfterFetch | Final_Answer/Exercise_for_Pool/python/1-2.py:332 | fetching one more URL keeps every stored record tied to a fetched URL |
| Scraping.SourcedAfterKeep | Final_Answer/Exercise_for_Pool/python/1-2.py:332-349 | storing the record of the last fetched URL keeps every record tied to its URL |
| Scraping.FetchAndKeep | Final_Answer/Exercise_for_Pool/python/1-2.py:332-349 | one detail scrape: the URL joins the fetched list, the record is appended iff complete with a new name, provenance and distinct names kept |
| Scraping.AppendKeepsDistinctUrls | Final_Answer/Exercise_for_Pool/python/scraper.py:299-303 | a URL not yet visited keeps the fetched list duplicate-free |
| Scraping.KeepAll | Final_Answer/Exercise_for_Pool/python/scraper.py:285-326 | the records a link loop holds after opening a list of URLs: nothing held before is lost, at most one record is added per URL, and each added record was accepted by the keep rule given the records held at that moment |
| Scraping.OpenOne | Final_Answer/Exercise_for_Pool/python/scraper.py:286-323 | opening one more URL below the cap appends its scraped record iff the record exists and the keep rule accepts it |
| Scraping.KeepStep | Final_Answer/Exercise_for_Pool/python/scraper.py:286-323 | a loop that opens every URL in turn still holds what KeepAll keeps, each URL opened below the cap |
| Scraping.KeepAllAppend | Final_Answer/Exercise_for_Pool/python/scraper.py:244-328 | keeping from two runs of URLs is keeping from the first, then from the second |
| Scraping.UnderCapAppend | Final_Answer/Exercise_for_Pool/python/scraper.py:244-328 | two runs each opened below the cap make one run opened below the cap |
| Scraping.Opened | Final_Answer/Exercise_for_Pool/python/scraper.py:285-303 | the URLs a link loop opens, in order: each wanted; at most one per link; with a visited set, distinct and none seen before |
| Scraping.OpenedStep | Final_Answer/Exercise_for_Pool/python/scraper.py:289-303 | one more link: its target is opened iff it is wanted and, with a visited set, neither seen nor opened already |
| Scraping.OpenedAppend | Final_Answer/Exercise_for_Pool/python/scraper.py:244-328 | opening two runs of links is opening the first, then the second with everything the first opened counted as seen |
| Scraping.OpenedPrefix | Final_Answer/Exercise_for_Pool/python/scraper.py:285-287 | what the first n links open is the start of what all of them open, so a loop cut short by the cap opened a prefix |
| Scraping.InSetOf | Final_Answer/Exercise_for_Pool/python/scraper.py:299-303 | a URL is in the visited set built from a list iff it occurs in the list |
| Scraping.SetOfAppend | Final_Answer/Exercise_for_Pool/python/scraper.py:299-303 | the visited set built from two lists joined is the union of their sets |
| Scraping.WalkStart | Final_Answer/Exercise_for_Pool/python/scraper.py:285 | before the first link nothing is opened or kept |
| Scraping.WalkOn | Final_Answer/Exercise_for_Pool/python/scraper.py:285-326 | one step of a link loop below the cap keeps the loop what Opened and KeepAll say for the links walked so far |
| Scraping.PageStep | Final_Answer/Exercise_for_Pool/python/scraper.py:244-328 | the URLs opened over the earlier pages followed by those opened on one more page are what Opened lists for all those links together, and the records are KeepAll of them |
| Scraping.CrawlStart | Final_Answer/Exercise_for_Pool/python/scraper.py:239-244 | before the first list page the crawl has opened and kept nothing |
| Scraping.CrawlOn | Final_Answer/Exercise_for_Pool/python/scraper.py:244-328 | one more list page whose loop opened what Opened lists for its links (all of them unless the cap was reached) keeps the crawl what Opened and KeepAll say |
| Scraping.CrawlEmpty | Final_Answer/Exercise_for_Pool/python/scraper.py:280-282 | a list page without links changes nothing |
| Scraping.CrawledWhole | Final_Answer/Exercise_for_Pool/python/scraper.py:244-328 | below the cap every link walked so far was examined, so the visited set is exactly what Opened lists for all of them |
| Scraping.FlattenStep | Exercise_for_Pool/python/2-2.py:86-111 | one more page's links follow the links walked before them |
| Scraping.AllLinksStep | Final_Answer/Exercise_for_Pool/python/scraper.py:264-285 | the links of one more list page follow the links of the pages before |
| Scraping.EachHasLinksAt | Final_Answer/Exercise_for_Pool/python/scraper.py:280-282 | in a crawl that went on past each page, every page had links |
| Scraping.CheckSslWithHandshake | docker-scraping-project/5.5.py:13-27 | False for an empty or non-`https://` URL before any connection; otherwise the handshake outcome; True only for `https://`. The same guard is in scraper.py:17-31, 6.6.py:17-31, 2-2.py:36-48 and Exercise_for_Pool/python/2-2.py:28-38 |
| Scraping.EmptyUrlNotSsl | docker-scraping-project/5.5.py:15-16 | an empty URL is never SSL, whatever the handshake |
| Scraping.FirstFound | 6.6.py:100-104 | the text of the first selector that finds an element (possibly ""), "" when none finds one |
| Scraping.FirstFoundTail | 6.6.py:100-104 | a first selector that finds nothing leaves the answer to the rest of the chain |
| Scraping.TakeFirstFound | 6.6.py:100-104 | the selector loop returns FirstFound |
| Scraping.FirstNonEmpty | docker-scraping-project/5.5.py:190-197 | "" iff every locator raised or gave empty text; otherwise some locator's text |
| Scraping.StripHits | docker-scraping-project/5.5.py:193 | `.text.strip()` of each hit, raising locators kept as None |
| Scraping.TakeFirstNonEmpty | docker-scraping-project/5.5.py:190-197 | the locator loop returns FirstNonEmpty |
| Scraping.SanitizeTel | docker-scraping-project/5.5.py:210 | `re.sub(r'[^0-9\-]', '', t)` keeps only ASCII digits and '-' |
| Scraping.SanitizeTelFixed | docker-scraping-project/5.5.py:210 | text of digits and '-' only is unchanged |
| Scraping.SanitizeTelIdempotent | docker-scraping-project/5.5.py:210 | sanitising twice equals sanitising once |
| Scraping.SanitizeTelAppend | docker-scraping-project/5.5.py:210 | sanitising distributes over concatenation |
| Scraping.SanitizeStripped | docker-scraping-project/5.5.py:209-210 | stripping before sanitising changes nothing |
| Scraping.SanitizeSpace | docker-scraping-project/5.5.py:209-210 | whitespace-only text sanitises to "" |
| Scraping.FirstTel | 6.6.py:114-120 | the first non-empty sanitised hit wins: only digits and '-', every earlier hit missing or sanitising to "", and "" iff every hit is |
| Scraping.PickTel | docker-scraping-project/5.5.py:206-214 | the phone loop returns FirstTel |
| Scraping.PickOfficialUrl | 2-2.py:98-104 | the href of the first link whose text holds a keyword, starting with `http` and free of the excluded host; "" iff no link qualifies |
| Scraping.HasAnyKeyword | 2-2.py:100 | `any(kw in text …)` is true iff some keyword occurs in the text |
| Scraping.PageUrl | Final_Answer/Exercise_for_Pool/python/scraper.py:254-260 | page 1 is the base; a later page is the base, then `&p=` when the base has '?' (else `?p=`), then only digits (also 6.6.py:178-186) |
| Scraping.PageUrlPageNumber | Final_Answer/Exercise_for_Pool/python/scraper.py:254-260 | the page number can be read back from the URL after the marker |
| Scraping.PageUrlInjective | Final_Answer/Exercise_for_Pool/python/scraper.py:254-260 | different pages give different URLs, so no list page is requested twice |
| Scraping.Pages | Final_Answer/Exercise_for_Pool/python/scraper.py:244-260 | the list URLs of pages 1 to n, one per page |
| Scraping.PagesAt | Final_Answer/Exercise_for_Pool/python/scraper.py:254-260 | the i-th requested list URL is the URL of page i + 1 |
| Scraping.PlainPageUrl | 2-2.py:118 | page 1 is the base; a later page is the base, then `?p=`, then only digits (also Exercise_for_Pool/python/2-2.py:86) |
| Scraping.PlainPages | 2-2.py:115-118 | the plain list URLs of pages 1 to n, one per page |
| Scraping.PlainPagesAt | 2-2.py:118 | the i-th requested list URL is the plain URL of page i + 1 |
| Scraping.PlainPageUrlAgrees | 2-2.py:118 | the plain rule and the `&p=` rule agree iff the page is 1 or the base has no '?' |
| Exercise12.BuildingBlock | Final_Answer/Exercise_for_Pool/python/1-2.py:57-72 | the building block on whitespace-free text is the ordered three-pattern cut, the stripping of both pieces a no-op |
| Exercise12.StrippedPieces | Final_Answer/Exercise_for_Pool/python/1-2.py:67-75 | both sides of a cut of whitespace-free text are left alone by strip and whitespace removal |
| Exercise12.SplitAddress | Final_Answer/Exercise_for_Pool/python/1-2.py:24-77 | `split_address` is the shared split with the three patterns at lines 59-61 in order |
| Exercise12.CheckSsl | Final_Answer/Exercise_for_Pool/python/1-2.py:13-22 | True iff the URL starts with `https://`; the explicit empty test is subsumed |
| Exercise12.FirstAcceptableFrom | Final_Answer/Exercise_for_Pool/python/1-2.py:123-126 | the first candidate from an index whose lower-case form holds no blacklisted piece, None iff none |
| Exercise12.FirstAcceptable | Final_Answer/Exercise_for_Pool/python/1-2.py:123-126 | the filter returns "" or an acceptable candidate |
| Exercise12.ExtractEmail | Final_Answer/Exercise_for_Pool/python/1-2.py:123-126 | the loop returns the first acceptable candidate, "" when none is acceptable |
| Exercise12.CleanKeepsPrefix | Final_Answer/Exercise_for_Pool/python/1-2.py:307-313 | cutting the query keeps the site prefix and never adds a slash |
| Exercise12.AdmittedAsWrittenListing | Final_Answer/Exercise_for_Pool/python/1-2.py:307-315 | of the link test as written (`AdmitAsWritten`): a URL it admits is the href cut at its first '?' and is a listing URL (site prefix, ends in '/', no '?'), although the exclusion and visited tests saw the raw href |
| Exercise12.ShopUrlSlashes | Final_Answer/Exercise_for_Pool/python/1-2.py:307 | a shop URL with a query has four slashes, so it passes the `count('/') <= 4` test |
| Exercise12.ShopUrlSlashesTop | Final_Answer/Exercise_for_Pool/python/1-2.py:307 | the top page with a query string has three slashes, so it passes the `count('/') <= 4` test |
| Exercise12.AdmitAsWrittenRequeues | Final_Answer/Exercise_for_Pool/python/1-2.py:309-315 | as written, a shop linked with a query string is queued again whether or not the shop URL is already visited |
| Exercise12.AdmitAsWrittenQueuesTopPage | Final_Answer/Exercise_for_Pool/python/1-2.py:309-315 | as written, the excluded top page is queued when linked with a query string |
| Exercise12.Admit | Final_Answer/Exercise_for_Pool/python/1-2.py:307-315 | corrected test: a queued URL is the cleaned href, a listing URL, not excluded and not visited |
| Exercise12.AdmitRefinesAsWritten | Final_Answer/Exercise_for_Pool/python/1-2.py:307-315 | on an href without a query the corrected test and the written one give the same answer |
| Exercise12.CollectLinks | Final_Answer/Exercise_for_Pool/python/1-2.py:300-317 | the link loop as written: the queue is QueuedAsWritten of the hrefs, and visited grows by exactly the queued URLs |
| Exercise12.QueuedAsWritten | Final_Answer/Exercise_for_Pool/python/1-2.py:303-317 | the queue the written loop builds holds at most one URL per href |
| Exercise12.QueuedAsWrittenListing | Final_Answer/Exercise_for_Pool/python/1-2.py:303-317 | every URL the written loop queues is a listing URL |
| Exercise12.QueuedFromHrefs | Final_Answer/Exercise_for_Pool/python/1-2.py:303-317 | every URL the written loop queues is one of the page's hrefs cut at its first '?' |
| Exercise12.CleanedFromPrefix | Final_Answer/Exercise_for_Pool/python/1-2.py:303-317 | a URL cut from one of the first hrefs is cut from the whole list |
| Exercise12.Queued | Final_Answer/Exercise_for_Pool/python/1-2.py:303-317 | the corrected queue: distinct listing URLs, none excluded, none visited before the page |
| Exercise12.QueuedAgree | Final_Answer/Exercise_for_Pool/python/1-2.py:307-315 | on hrefs without a query string the written and the corrected queue are the same |
| Exercise12.QueuedTwiceAsWritten | Final_Answer/Exercise_for_Pool/python/1-2.py:307-315 | as written, the links `<shop>?a` and `<shop>?b` queue the same shop twice |
| Exercise12.QueuedTopPageAsWritten | Final_Answer/Exercise_for_Pool/python/1-2.py:307-315 | as written, the link `https://r.gnavi.co.jp/?x` queues the excluded top page |
| Exercise12.RecordOf | Final_Answer/Exercise_for_Pool/python/1-2.py:199-266 | the address columns are `split_address`'s columns (Exercise12.SplitAddress) of the address, so they concatenate to the whitespace-free address; the e-mail is the mailto address when there is one, else the first acceptable candidate; SSL iff the official URL passes the https guard; name and phone as read |
| Exercise12.ScrapeOne | Final_Answer/Exercise_for_Pool/python/1-2.py:330-352 | one queued URL is fetched and appended to the fetched list; its record is kept iff complete with a new name; the accumulator invariant is kept |
| Exercise12.ScrapeQueued | Final_Answer/Exercise_for_Pool/python/1-2.py:326-361 | the detail loop fetches the queued URLs in order until the cap is reached; the records are KeepAll of them under the complete-and-new-name rule, each URL opened below the cap |
| Exercise12.ScrapeSearchPage | Final_Answer/Exercise_for_Pool/python/1-2.py:279-361 | one search page: its queue is QueuedAsWritten, visited grows by exactly it, and the crawl is extended by the queue, still what Opened and KeepAll say; fetched URLs stay listing URLs |
| Exercise12.RunsOfStep | Final_Answer/Exercise_for_Pool/python/1-2.py:279-317 | one more search page extends the record of the queues built page after page |
| Exercise12.ListingAppend | Final_Answer/Exercise_for_Pool/python/1-2.py:307-315 | two lists of listing URLs join into one |
| Exercise12.OpenedPlain | Final_Answer/Exercise_for_Pool/python/1-2.py:326-329 | a loop without a visited test or filter opens every URL of its queue, in order |
| Exercise12.JoinDistinct | Final_Answer/Exercise_for_Pool/python/1-2.py:310-315 | two duplicate-free lists with no common element join into a duplicate-free list |
| Exercise12.QueuedOnce | Final_Answer/Exercise_for_Pool/python/1-2.py:303-317 | with the corrected queue, the queues of all pages together hold no URL twice and no excluded URL |
| Exercise12.ScrapeRestaurantList | Final_Answer/Exercise_for_Pool/python/1-2.py:272-366 | the search pages are requested in order until the cap is reached; the crawl fetches the concatenated as-written queues of those pages, up to the cap, and keeps KeepAll of them; at most max_records complete records with distinct names; fetched URLs are listing URLs; each record is the detail of a fetched URL |
| Exercise12.OpenedAll | Final_Answer/Exercise_for_Pool/python/1-2.py:326-329 | with one search page whose queue is below the cap, the crawl fetches exactly that queue |
| Exercise12.OpensTwiceAsWritten | Final_Answer/Exercise_for_Pool/python/1-2.py:272-361 | a run of the whole scraper over one page linking `<shop>?a` and `<shop>?b` fetches the shop twice |
| Exercise12.OpensTopPageAsWritten | Final_Answer/Exercise_for_Pool/python/1-2.py:272-361 | a run of the whole scraper over one page linking `https://r.gnavi.co.jp/?x` fetches the excluded top page |
| Scraper.SplitAddress | Final_Answer/Exercise_for_Pool/python/scraper.py:33-72 | `split_address` is the shared split with the one keyword pattern |
| Scraper.SplitAddressColumns | Final_Answer/Exercise_for_Pool/python/scraper.py:33-72 | empty gives four ""; columns free of whitespace concatenate to the stripped address; a building holds a keyword at the leftmost match; no building means no match in the street; 6.6.py:33-74 is the same function |
| Scraper.FirstAcceptable | Final_Answer/Exercise_for_Pool/python/scraper.py:113-118 | the first text with no excluded word and more than two characters; "" iff none |
| Scraper.NameOf | Final_Answer/Exercise_for_Pool/python/scraper.py:96-136 | the name is "" or free of excluded words; a name of ≤ 2 characters is the h1; "" iff h1 unusable and no fallback acceptable; a usable h1 wins |
| Scraper.ScanAcceptable | Final_Answer/Exercise_for_Pool/python/scraper.py:129-136 | the fallback loop returns FirstAcceptable |
| Scraper.PickName | Final_Answer/Exercise_for_Pool/python/scraper.py:96-136 | the reassignment chain returns NameOf |
| Scraper.GatherLinks | Final_Answer/Exercise_for_Pool/python/scraper.py:269-276 | the gathered links are exactly the hrefs holding `/restaurant/` or `r.gnavi.co.jp`, in order |
| Scraper.Absolute | Final_Answer/Exercise_for_Pool/python/scraper.py:291-292 | an empty href stays empty; one starting with `http` is kept as it is |
| Scraper.ScrapeLinks | Final_Answer/Exercise_for_Pool/python/scraper.py:285-326 | the link loop opens exactly what Opened lists for its first `stop` links (all of them unless the cap is reached): gnavi URLs, joined when relative, not visited before, each once; the records are KeepAll of them under the complete-and-new-name rule; visited grows by exactly them |
| Scraper.OpenLink | Final_Answer/Exercise_for_Pool/python/scraper.py:289-326 | one link: its target is opened iff it is a gnavi URL not yet visited, and then it is appended to the URLs fetched and to those this page added; the record is kept as the complete-and-new-name rule says; otherwise nothing changes |
| Scraper.ScrapePage | Final_Answer/Exercise_for_Pool/python/scraper.py:264-328 | one list page: the crawl is extended by the page's restaurant links and stays what Opened and KeepAll say; the loop goes on iff the page had such links |
| Scraper.ListPage | Final_Answer/Exercise_for_Pool/python/scraper.py:247-328 | one turn of the page loop: the next page URL by the page rule is requested; the loop goes on iff it had restaurant links; the pages requested, the links examined and the crawl stay what the loop invariant says |
| Scraper.ListPages | Final_Answer/Exercise_for_Pool/python/scraper.py:243-332 | the page loop ends at the cap, after the tenth page, or at the first page without links, with every earlier page linked |
| Scraper.ScanEnds | Final_Answer/Exercise_for_Pool/python/scraper.py:239-334 | wherever the page loop stops, the list returned keeps every promise of ScrapeRestaurantList |
| Scraper.ScrapeRestaurantList | Final_Answer/Exercise_for_Pool/python/scraper.py:239-334 | at most 10 pages, the i-th being PageUrl(base, i+1), every page but the last with links; the fetched URLs are what Opened lists for the links of the requested pages, up to the cap, and the records KeepAll of them; at most max_records complete records with distinct names; distinct fetched gnavi URLs; provenance |
| Six66.DetailRecord | 6.6.py:93-157 | the record has URL "" and SSL False, the first found name, the phone FirstTel picks (first non-empty sanitised hit), the first e-mail or "", and address columns that are `split_address`'s columns (Scraper.SplitAddress) of the stripped address, concatenating to it without whitespace |
| Six66.ScrapeDetail | 6.6.py:93-157 | the three selector loops return DetailRecord |
| Six66.PageLinks | 6.6.py:199-218 | the elements of the first selector finding any; with none, the hrefs holding `/restaurant/` in order |
| Six66.PickLinks | 6.6.py:199-218 | the selector loop and its fallback return PageLinks |
| Six66.KeepRestaurantPaths | 6.6.py:213-218 | the fallback loop keeps exactly the `/restaurant/` hrefs in order |
| Six66.ScrapeLinks | 6.6.py:227-249 | the link loop opens what Opened lists for its first `stop` links without a visited set (a repeated link is fetched again); the records are KeepAll of them under the named rule; cap, URL ""/SSL False, gnavi URLs, provenance |
| Six66.WalkLink | 6.6.py:231-249 | one link: its target is opened iff it is a gnavi URL, and the record is kept iff named; otherwise nothing changes |
| Six66.ScrapePage | 6.6.py:190-251 | one list page: the crawl is extended by the page's links and stays what Opened and KeepAll say; the loop goes on iff the page had links |
| Six66.ListPage | 6.6.py:171-251 | one turn of the page loop: the next page URL by the page rule is requested; the loop goes on iff it had links; the pages requested, the links examined and the crawl stay what the loop invariant says |
| Six66.ListPages | 6.6.py:166-255 | the page loop ends at the cap, after the tenth page, or at the first page without links, with every earlier page linked |
| Six66.ScanEnds | 6.6.py:163-257 | wherever the page loop stops, the list returned keeps every promise of ScrapeRestaurantList |
| Six66.VisitLink | 6.6.py:231-249 | one link is fetched once and the invariant kept |
| Six66.FetchDetail | 6.6.py:243 | the fetch returns the detail oracle's record, whose URL is "" and SSL False |
| Six66.KeepFound | 6.6.py:243-249 | a record is appended iff present with a non-empty name; the URL joins the fetched list |
| Six66.ScrapeRestaurantList | 6.6.py:163-257 | at most 10 pages following PageUrl, every page but the last with links; the fetched URLs are what Opened lists for the links of the requested pages, without dedupe, up to the cap, and the records KeepAll of them; at most max_records named records with URL "" and SSL False; gnavi URLs; provenance |
| Docker55.SplitAddress | docker-scraping-project/5.5.py:29-70 | empty gives four ""; columns concatenate to the whitespace-free address; a building holds one of the ten keywords; no building means no match |
| Docker55.DetailRecord | docker-scraping-project/5.5.py:172-257 | first non-empty stripped name and address, the address columns are Docker55.SplitAddress of that address, the phone FirstTel picks (first non-empty sanitised hit), `emails[0]` or "", the official URL, SSL only for `https://` |
| Docker55.ScrapeDetail | docker-scraping-project/5.5.py:183-253 | the locator loops return DetailRecord |
| Docker55.ReturnUrl | docker-scraping-project/5.5.py:325 | the URL is unchanged without `?p=`; with it, the text before the first '?'; the result never holds `?p=` |
| Docker55.ReturnUrlIdempotent | docker-scraping-project/5.5.py:325 | rewriting the return URL twice equals rewriting it once |
| Docker55.FirstElements | docker-scraping-project/5.5.py:285-291 | the elements of the first selector finding any, [] iff none does |
| Docker55.PickElements | docker-scraping-project/5.5.py:285-291 | the selector loop returns FirstElements |
| Docker55.Candidates | docker-scraping-project/5.5.py:298-305 | the gnavi hrefs among the first max_records − len(data) elements, in order; at most that many |
| Docker55.KeepGnavi | docker-scraping-project/5.5.py:299-303 | the URL loop keeps exactly the non-empty hrefs holding `gnavi.co.jp`, in order |
| Docker55.ScrapeUrls | docker-scraping-project/5.5.py:310-325 | the detail loop fetches the candidates in order until the cap is reached, without dedupe; the records are KeepAll of them under the named rule |
| Docker55.VisitOne | docker-scraping-project/5.5.py:316-325 | one candidate is fetched once and the invariant kept |
| Docker55.FetchDetail | docker-scraping-project/5.5.py:316 | the fetch returns the detail oracle's record |
| Docker55.KeepFound | docker-scraping-project/5.5.py:316-319 | a record is appended iff present with a non-empty name |
| Docker55.ScrapeListPage | docker-scraping-project/5.5.py:276-325 | stop iff no selector finds an element, and then nothing is opened or stored; the URLs opened are a prefix of those the page offers (Offered), and the records are KeepAll of them under the named rule |
| Docker55.ListStep | docker-scraping-project/5.5.py:276-361 | a pass that continues goes where the next-page button of the page then shown leads (Reached): the current list page when nothing was opened, the return URL of the search otherwise; reaching max_records stops; the records stay KeepAll of every URL fetched so far |
| Docker55.ListedOn | docker-scraping-project/5.5.py:259-361 | reading the list page the last pass led to keeps the record of the pages read |
| Docker55.RereadsAfterVisit | docker-scraping-project/5.5.py:325-361 | every pass that opened a URL leads to the same list page, the one the next-page button of the search's return URL shows, so the crawl re-reads that page after any visit |
| Docker55.ScrapeRestaurantList | docker-scraping-project/5.5.py:259-366 | the list pages read follow Listed: the first is the search URL, each later one what Reached gives from the one before, and a pass that opened a page found elements; the records are KeepAll of every URL fetched, without dedupe, each opened below the cap; at most max_records named records; gnavi URLs; provenance |
| Mysql22.SplitAddress | 2-2.py:50-70 | empty gives four ""; columns concatenate to the whitespace-free address; a building holds ビル/タワー/ハイツ/マンション; no building means no match |
| Mysql22.OfficialUrl | 2-2.py:98-105 | the first link with a keyword, `http` start and no `gnavi.co.jp`; "" iff none; SSL only for `https://` |
| Mysql22.ScrapeLinks | 2-2.py:124-137 | the link loop opens what Opened lists for its first `stop` links: joined when relative, not visited before, each once; the records are KeepAll of them under the complete rule (names may repeat); visited grows by exactly them |
| Mysql22.VisitLink | 2-2.py:127-136 | one link: joined when relative, opened iff not visited, the record kept iff complete; otherwise nothing changes |
| Mysql22.ScrapePage | 2-2.py:119-141 | one list page: failed iff the request raised; the crawl is extended by the page's links and stays what Opened and KeepAll say |
| Mysql22.ListPage | 2-2.py:115-141 | one turn of the page loop: the next page URL by the plain rule is requested; it failed iff the request raised; the pages requested, the links examined and the crawl stay what the loop invariant says |
| Mysql22.ScrapeList | 2-2.py:110-142 | at most 10 pages by the plain rule, the crawl stopping early only on a failed request or the cap; the fetched URLs are what Opened lists for the links of the requested pages, up to the cap, and the records KeepAll of them; at most max_records complete records; each URL fetched once; provenance |
| Pool22.PrefectureAsWritten | Exercise_for_Pool/python/2-2.py:44-45 | 北海道, or the shortest prefix of length ≥ 2 ending in 都道府県, or "" |
| Pool22.KyotoCutShort | Exercise_for_Pool/python/2-2.py:44 | as written, an address in 京都府 gets the prefecture 京都 |
| Pool22.Prefecture | Exercise_for_Pool/python/2-2.py:44-45 | corrected rule: 北海道 and 京都府 whole, otherwise the shortest 都道府県 prefix |
| Pool22.PrefecturePlain | Exercise_for_Pool/python/2-2.py:44 | both rules find a name whose only 都道府県 character is its last, such as 東京都 |
| Pool22.SplitAddr | Exercise_for_Pool/python/2-2.py:40-50 | corrected split (京都府 whole): empty gives four ""; building always ""; prefecture ++ city ++ street is the whitespace-free address; the prefecture is the corrected Prefecture; the city is the shortest 市区町村 prefix of the rest, "" iff there is none |
| Pool22.SplitAddrAsWritten | Exercise_for_Pool/python/2-2.py:40-50 | the split as written: empty gives four ""; building always ""; prefecture ++ city ++ street is the whitespace-free address; the prefecture is PrefectureAsWritten; the city is the shortest 市区町村 prefix of the rest, "" iff there is none |
| Pool22.SplitsAgreePlain | Exercise_for_Pool/python/2-2.py:40-50 | on an address starting with a prefecture whose only 都道府県 character is its last, the written and the corrected split agree |
| Pool22.TokyoPlain | Exercise_for_Pool/python/2-2.py:44 | 東京都 has 都道府県 only as its last character |
| Pool22.KyotoSplit | Exercise_for_Pool/python/2-2.py:44-49 | 京都府京都市… splits as 京都 / 府京都市 as written, 京都府 / 京都市 corrected |
| Pool22.KyotoSplitAsWritten | Exercise_for_Pool/python/2-2.py:44-49 | as written, 京都府京都市 + ward gives prefecture 京都 and city 府京都市 |
| Pool22.KyotoSplitCorrected | Exercise_for_Pool/python/2-2.py:44-49 | corrected, 京都府京都市 + ward gives prefecture 京都府 and city 京都市 |
| Pool22.CityAfterFu | Exercise_for_Pool/python/2-2.py:47 | the city match on 府京都市… ends after 市 |
| Pool22.CityAfterKyoto | Exercise_for_Pool/python/2-2.py:47 | the city match on 京都市… ends after 市 |
| Pool22.GatherLinks | Exercise_for_Pool/python/2-2.py:91-97 | `list(set(links))`: distinct, and exactly the hrefs holding `r.gnavi.co.jp/r`, without `/plan/`, not visited |
| Pool22.ScrapeLinks | Exercise_for_Pool/python/2-2.py:98-111 | the link loop opens what Opened lists for its first `stop` hrefs: joined when relative, not visited before, each once; the records are KeepAll of them under the complete rule (names may repeat); visited grows by exactly them |
| Pool22.ScrapeLink | Exercise_for_Pool/python/2-2.py:101-111 | one href: joined when relative, opened iff not visited, the item kept iff complete; otherwise nothing changes |
| Pool22.RunsOfStep | Exercise_for_Pool/python/2-2.py:86-97 | one more page extends the record of the hrefs gathered page after page, each page gathered with the earlier visits as seen |
| Pool22.ScrapePage | Exercise_for_Pool/python/2-2.py:86-112 | failed iff the list request raised, and then nothing changes; otherwise the page's gathered hrefs (GatheredOf) extend the crawl, which stays what Opened and KeepAll say |
| Pool22.ListPage | Exercise_for_Pool/python/2-2.py:83-115 | one turn of the page loop: the next page URL by the plain rule is requested; it failed iff the request raised, and then the runs and the crawl are as before; otherwise the page's gathered run joins the runs |
| Pool22.ListPages | Exercise_for_Pool/python/2-2.py:82-116 | the page loop ends at the cap, after page 30, or at the first request that raised, with the runs of every earlier page recorded |
| Pool22.ScanEnds | Exercise_for_Pool/python/2-2.py:78-117 | wherever the page loop stops, the data returned keeps every promise of ScrapeAll |
| Pool22.ScrapeAll | Exercise_for_Pool/python/2-2.py:78-116 | at most 30 pages by the plain rule, stopping early only on a failed request or the cap; each page's links are gathered from its hrefs with the earlier visits counted as seen; the fetched URLs are what Opened lists for them, up to the cap, and the records KeepAll of them; at most max_n complete items; each href fetched once; provenance |
| Untitled.FirstWhere | Untitled-1.py:90-92 | `re.search` of a one-character class: the first index in the class, or the length |
| Untitled.SplitOnSpaceCut | Untitled-1.py:103-106 | on stripped text, `re.split(r"\s+", b, 1)` cuts at the first whitespace run, or keeps b whole |
| Untitled.SpaceCutContent | Untitled-1.py:104-106 | the cut loses nothing but the whitespace between banchi and building |
| Untitled.CutRestColumns | Untitled-1.py:89-106 | nothing but whitespace is lost; the city holds no character of the class; no building without a banchi; a banchi before a building holds no whitespace |
| Untitled.CutRestContent | Untitled-1.py:89-106 | the three columns cut off the rest hold its text without whitespace |
| Untitled.SplitWithColumns | Untitled-1.py:80-107 | empty gives four ""; the prefecture is the first listed name the stripped address starts with; without one, ("", stripped address, "", ""); after a prefecture the city holds no character of the class; no building without a banchi |
| Untitled.SplitWithContent | Untitled-1.py:80-107 | the four columns lose nothing of the address but whitespace |
| Untitled.SplitAddressAsWritten | Untitled-1.py:72-107 | the split with the class `[0-90-９-９]`: nothing but whitespace lost; no city character lies in '0'..'９' |
| Untitled.SplitAddress | Untitled-1.py:72-107 | corrected split: the listed prefecture, a digit-free city, a banchi starting with a digit, no building without a banchi |
| Untitled.BanchiStartsWithDigit | Untitled-1.py:90-94 | with the intended class, a non-empty banchi begins with a digit |
| Untitled.CutRestBanchi | Untitled-1.py:90-94 | the banchi cut off the rest starts at its first digit |
| Untitled.KanjiCityLost | Untitled-1.py:90 | as written, a kana/kanji city is swallowed into the banchi; corrected, it is the city column |
| Untitled.CutAsWritten | Untitled-1.py:90 | of the class as written (`DigitClassAsWritten`): a kana or kanji first character already counts as a digit |
| Untitled.CutIntended | Untitled-1.py:90 | with the intended class the cut falls at the first ASCII digit |
| Untitled.NoSpaceWhole | Untitled-1.py:104-106 | text without whitespace is not cut, building "" |
| Untitled.LStripControl | Untitled-1.py:57 | `urlparse` drops leading C0 controls and spaces: a suffix whose first character is visible |
| Untitled.DropUnsafe | Untitled-1.py:57 | `urlparse` deletes tab, CR and LF |
| Untitled.DropUnsafePrefix | Untitled-1.py:57 | the deletion works piecewise over concatenation |
| Untitled.DropUnsafeClean | Untitled-1.py:57 | text without tab, CR or LF is left as it is |
| Untitled.SchemeOfClean | Untitled-1.py:57-59 | of the scheme test `SchemeIsHttps`: a clean URL beginning `https:` in any case has the https scheme |
| Untitled.CheckSsl | Untitled-1.py:53-70 | False for "" or a non-https scheme before any request; otherwise the request outcome |
| Untitled.CheckSslAgrees | Untitled-1.py:55-60 | on URLs passing the `https://` guard, the scheme rule and the prefix rule give the same answer |
| Untitled.UpperCaseSchemePasses | Untitled-1.py:57-59 | `HTTPS://a` has the https scheme |
| Untitled.UpperCaseScheme | Untitled-1.py:57-59 | the scheme rule accepts `HTTPS://a`, which the prefix guard of the other scripts rejects |
| Untitled.ExtractStoreLinks | Untitled-1.py:109-121 | distinct links; each is the site join of an href holding `/shop/`, `/rstr/` or `/pub/`, and every such href is represented |
| Untitled.FirstNextAnchor | Untitled-1.py:265-268 | the first anchor whose text holds 次へ/次ページ/＞/≫/>, None iff none |
| Untitled.NextLink | Untitled-1.py:258-268 | rel=next joined to the current URL when present; else the first next-text anchor joined, no earlier anchor holding a next mark; "" when neither exists |
| Untitled.VisitStores | Untitled-1.py:238-256 | the store loop opens what Opened lists for its first `stop` links: not visited before, each once; every parsed record is kept, with URL "" and SSL False; visited grows by exactly the opened links |
| Untitled.VisitStore | Untitled-1.py:241-255 | one store link: opened iff not visited, the parsed record kept with URL "" and SSL False; otherwise nothing changes |
| Untitled.RunsOfStep | Untitled-1.py:231-236 | one more search page extends the record of the store links extracted page after page |
| Untitled.CrawlPage | Untitled-1.py:235-273 | one search page: the store links are the page's extracted links, the stores are visited with the crawl kept what Opened and KeepAll say, and the next URL is NextLink |
| Untitled.CrawlRequests | Untitled-1.py:221-275 | at most max_records results with URL "" and SSL False; each store fetched once; each search page the next link of the one before; a crawl stopping under the cap and the fuel ended on a failed request or a missing or unchanged next link; the fetched stores are what Opened lists for the store links of the pages read, up to the cap |
| Inline44.ListUrlInjective | 4.4.py:14 | of the list URL `ListUrl`: different page numbers give different list URLs |
| Inline44.PrefectureMatch | 4.4.py:58-61 | "" iff no alternative matches; otherwise 東京都/北海道/京都府/大阪府 or 2–3 characters then 県, prefixing the address |
| Inline44.CityCut | 4.4.py:63-66 | 0 iff no 市区町村 prefix of length ≥ 2 leaves a character behind; else the shortest one |
| Inline44.RunEnd | 4.4.py:68 | the greedy `[-丁目0-9]+` run |
| Inline44.LeadingDigits | 4.4.py:68 | the greedy `\d{1,3}`: up to three Unicode digits |
| Inline44.TryDigitsSound | 4.4.py:68 | backtracking over the digit count yields a block match or 0 |
| Inline44.TryDigitsLongest | 4.4.py:68 | the backtracking result is at least every block match with fewer digits |
| Inline44.BlockEnd | 4.4.py:68-70 | the optional group is the longest block prefix, 0 when none |
| Inline44.RestAfter | 4.4.py:58-61 | `(.*)` is the rest up to the first line break |
| Inline44.BlockSplit | 4.4.py:68-71 | block ++ building is the text after the city; the block is the longest block prefix |
| Inline44.CitySplit | 4.4.py:63-66 | city "" iff no shortest 市区町村 prefix with a character after it; else city ++ rest |
| Inline44.SplitAddress | 4.4.py:55-71 | no address or no prefecture gives four ""; otherwise the matched prefecture, a city that is the shortest 市区町村 prefix of the rest of the line, no block or building without a city, a block that is a block-pattern prefix, and the parts joined are a prefix of the address |
| Inline44.RestParts | 4.4.py:63-71 | the parts of the rest concatenate to it when the city matched |
| Inline44.PrefixOfLine | 4.4.py:58-61 | prefecture ++ rest prefixes the address, all of it on one line |
| Inline44.RestJoined | 4.4.py:58-71 | the parts after a prefecture concatenate to the prefecture and the first line of the rest |
| Inline44.SplitIsPrefix | 4.4.py:55-71 | whatever matches, the four columns concatenate to a prefix of the address |
| Inline44.SplitRoundTrip | 4.4.py:52-71 | on a single-line address where all three patterns match, the four columns concatenate to the address |
| Inline44.ItemRecord | 4.4.py:39-88 | the record of a list item: email "", URL "", SSL False, name and tel its tag texts |
| Inline44.AppendItems | 4.4.py:35-37 | appends the page's records in order, stopping at TARGET_COUNT |
| Inline44.RecordsOfBlank | 4.4.py:47-48 | every record built from list items has email "", URL "" and SSL False |
| Inline44.RecordsOfAppend | 4.4.py:35-88 | appending one page's records extends the records-of-items relation |
| Inline44.CollectWith | 4.4.py:22-90 | pages requested in order; every page but the last had items; stops at 50 records or an empty page; records are those of the items in order |
| Inline44.Collect | 4.4.py:22-90 | the same with the script's record, so every record has email "", URL "" and SSL False |
| FixSsl.StrOf | fix_ssl.py:6 | `str(x)` of a text cell is its text, of NaN "nan" |
| FixSsl.SslV1 | fix_ssl.py:6 | True iff the URL cell is text starting with `https://` |
| FixSsl.SslV2 | fix_ssl_v2.py:7 | True iff the URL cell is text starting with `https://`; NaN gives False |
| FixSsl.VersionsAgree | fix_ssl_v2.py:7 | the two scripts' rewrites (`FixV1`, `FixV2`) compute the same table |
| FixSsl.FixMatchesCheckSsl | fix_ssl_v2.py:7 | the recomputed flag equals `check_ssl` of 1-2.py on the URL text |
| FixSsl.Recompute | fix_ssl.py:6 | `apply` keeps the row count, the URL and other columns, and sets SSL from the URL |
| FixSsl.RecomputeIdempotent | fix_ssl.py:6 | recomputing twice equals recomputing once |
| FixSsl.FixV1Idempotent | fix_ssl.py:3-8 | running fix_ssl.py (`FixV1`) twice leaves the table as one run does |
| FixSsl.FixV2Idempotent | fix_ssl_v2.py:3-9 | running fix_ssl_v2.py (`FixV2`) twice leaves the table as one run does |
| FixSsl.CountAfterFix | fix_ssl_v2.py:11 | the count printed after the fix is the number of rows whose URL starts with `https://`, at most the row count |

## Left out

- Network requests, Selenium browser driving, `time.sleep` and console output are not modelled. Each fetched page is an oracle parameter (`pageOf`, `listing`, `show`, `search`, `store`, `detail`); `None` stands for a request or parse that raised.
- HTML parsing and CSS/XPath selection are oracles too: a page is represented by the texts and hrefs its selectors find. `get_text(strip=True)` is taken as the strip of the element text.
- The `re.findall` scans for phone numbers, e-mail addresses and address candidates in page text are oracle inputs. So are `max(..., key=len)` over those candidates and the longest-match choice in 1-2.py.
- `urljoin` is a parameter (`join`), since URL resolution is a library routine. `Scraper.Absolute` states only the two cases the scripts rely on.
- The TLS handshake of `check_ssl` is a boolean parameter; only its pure guard is modelled. The same holds for `requests.head` in Untitled-1.py.
- `get_official_url` in 1-2.py and 5.5.py switches browser windows, so it is an oracle value. `setup_driver` is not part of this model.
- `parse_store_page` in Untitled-1.py and `scrape_one` in `Exercise_for_Pool/python/2-2.py` are oracles returning `Option<Record>`. Their heuristics (title/h1 name, phone regex, address line search, the HP/ホ/公 link pick) are not modelled.
- CSV writing, the pandas DataFrame and the MySQL save functions are I/O and are not modelled. fix_ssl's CSV read is a row sequence; pandas dtype inference appears only as the three cell kinds of `FixSsl.Value`.
- `Docker55.ScrapeRestaurantList` and `Untitled.CrawlRequests` follow "next" links that need not terminate. They take a `fuel` bound on the number of list pages, so a crawl longer than the fuel is cut short.
- `Pool22.GatherLinks` and `Untitled.ExtractStoreLinks`: `list(set(...))` has an order the language leaves open. It is a nondeterministic choice; the contracts state membership and distinctness, not order.
- `split_address(None)` is not modelled. Every caller passes a string, so the functions take `string` and model the empty-string branch.
- The 47-prefecture table is stated by its properties. Concrete splits of sample addresses over it are not evaluated, because evaluating the table literal is too costly for the prover.
- `Scraper.Absolute`: states only the empty and `http` cases, not what `urljoin` returns for relative paths.
- `Docker55.DetailRecord`: states that SSL implies an `https://` URL rather than the handshake outcome, which `Scraping.CheckSslWithHandshake` states.
- `Text.AsciiLower`: lower-cases ASCII only. Python's `str.lower` also maps non-ASCII capitals, but the candidates of `extract_email` come from an ASCII-only pattern.
- `Exercise12.ScrapeRestaurantList`: models the link loop of 1-2.py as written, through `Exercise12.QueuedAsWritten`. The corrected queue `Exercise12.Queued` and its property `Exercise12.QueuedOnce` are stated on the queue alone; no crawl method runs the corrected queue.
- `Docker55.ScrapeRestaurantList`: states the records as `KeepAll` of every URL fetched, and which URLs one pass may open (`Docker55.ScrapeListPage`). It does not record, page by page, which list page each fetched URL came from.
- `Exercise_for_Pool/python/2-2.py` is a script written out by a shell heredoc from a Python string literal. The regular expressions are modelled as the written file has them (`\\s+` in the literal is `\s+` in the script).

## Findings

| source | as written | input that shows it | evidently intended | confidence | as-written member | corrected member |
|---|---|---|---|---|---|---|
| Final_Answer/Exercise_for_Pool/python/1-2.py:307-315 | the exclusion list and the visited test look at the raw href, but the URL queued and marked visited is the href cut at '?' | one search page linking `https://r.gnavi.co.jp/<id>/?a` and `https://r.gnavi.co.jp/<id>/?b` fetches `<id>/` twice; a page linking `https://r.gnavi.co.jp/?x` fetches the excluded top page | apply both tests to the cut URL | not executed | Exercise12.CollectLinks (Exercise12.QueuedAsWritten, Exercise12.OpensTwiceAsWritten, Exercise12.OpensTopPageAsWritten, Exercise12.AdmitAsWrittenRequeues) | Exercise12.Queued (Exercise12.QueuedOnce, Exercise12.Admit) |
| Exercise_for_Pool/python/2-2.py:44 | `^(北海道\|.+?[都道府県])` stops lazily at the first 都 | 京都府京都市中京区 splits as 京都 / 府京都市 / 中京区 | prefecture 京都府, city 京都市 | not executed | Pool22.PrefectureAsWritten (Pool22.KyotoSplitAsWritten) | Pool22.Prefecture (Pool22.KyotoSplitCorrected) |
| Untitled-1.py:90 | the class `[0-90-９-９]` parses as '0'..'９' plus '-', which includes every kana and kanji | 東京都千代田区丸の内1-1 gives city "" and banchi 千代田区丸の内1-1 | ASCII or full-width digits `[0-9０-９]` | not executed | Untitled.SplitAddressAsWritten (Untitled.KanjiCityLost) | Untitled.SplitAddress |
