/** What the scraper scripts have in common besides the address split: the record they
    store, the SSL guard, the selector fall-back chains, the phone sanitiser, the pick of
    the official link and the list-page URL builders. */
module Scraping {
  import opened Text

  /** One output row: 店舗名, 電話番号, メールアドレス, 都道府県, 市区町村, 番地, 建物名,
      URL, SSL. */
  datatype Record = Record(
    name: string, tel: string, email: string,
    prefecture: string, city: string, street: string, building: string,
    url: string, ssl: bool)

  /** The records the accumulators keep: name, city and street all present. */
  predicate Complete(r: Record) {
    r.name != "" && r.city != "" && r.street != ""
  }

  predicate DistinctNames(data: seq<Record>) {
    forall i, j :: 0 <= i < j < |data| ==> data[i].name != data[j].name
  }

  /** `existing['店舗名'] == name for existing in data`, scanned with an early break. */
  method HasName(data: seq<Record>, name: string) returns (duplicate: bool)
    ensures duplicate <==> exists i :: 0 <= i < |data| && data[i].name == name
  {
    duplicate := false;
    var i := 0;
    while i < |data|
      invariant 0 <= i <= |data|
      invariant !duplicate
      invariant forall j :: 0 <= j < i ==> data[j].name != name
    {
      if data[i].name == name {
        duplicate := true;
        return;
      }
      i := i + 1;
    }
  }

  /** Appending a record whose name is new keeps the names distinct. */
  lemma AppendKeepsDistinct(data: seq<Record>, r: Record)
    requires DistinctNames(data)
    requires forall i :: 0 <= i < |data| ==> data[i].name != r.name
    ensures DistinctNames(data + [r])
  {
  }

  /** The keep step of the accumulators that insist on complete, distinct records: a
      scraped record is appended when it has a name, a city and a street and no stored
      record has its name. */
  method KeepDistinct(data0: seq<Record>, rec: Option<Record>) returns (data: seq<Record>, kept: bool)
    requires DistinctNames(data0)
    ensures kept <==> rec.Some? && Complete(rec.value)
                      && forall i :: 0 <= i < |data0| ==> data0[i].name != rec.value.name
    ensures data == if kept then data0 + [rec.value] else data0
    ensures DistinctNames(data)
  {
    data, kept := data0, false;
    if rec.Some? && rec.value.name != "" {
      if rec.value.city == "" || rec.value.street == "" {
        return;
      }
      var duplicate := HasName(data0, rec.value.name);
      if !duplicate {
        AppendKeepsDistinct(data0, rec.value);
        data, kept := data0 + [rec.value], true;
      }
    }
  }

  /** The accumulators' record bound and filter: at most maxRecords records, each
      complete, no two with the same name. */
  predicate Kept(data: seq<Record>, maxRecords: nat) {
    && |data| <= maxRecords
    && (forall i :: 0 <= i < |data| ==> Complete(data[i]))
    && DistinctNames(data)
  }

  /** Where the records came from: `source[i]` is the position in `fetched` of the URL
      whose scraped record is record i. */
  predicate Sourced(data: seq<Record>, fetched: seq<string>, source: seq<nat>,
                    detail: string -> Option<Record>) {
    && |source| == |data|
    && (forall i :: 0 <= i < |data| ==> source[i] < |fetched| && detail(fetched[source[i]]) == Some(data[i]))
  }

  lemma SourcedAfterFetch(data: seq<Record>, fetched: seq<string>, source: seq<nat>,
                          detail: string -> Option<Record>, u: string)
    requires Sourced(data, fetched, source, detail)
    ensures Sourced(data, fetched + [u], source, detail)
  {
    forall i | 0 <= i < |data|
      ensures source[i] < |fetched + [u]| && detail((fetched + [u])[source[i]]) == Some(data[i])
    {
      assert (fetched + [u])[source[i]] == fetched[source[i]];
    }
  }

  lemma SourcedAfterKeep(data: seq<Record>, fetched: seq<string>, source: seq<nat>,
                         detail: string -> Option<Record>, r: Record)
    requires Sourced(data, fetched, source, detail)
    requires |fetched| > 0 && detail(fetched[|fetched| - 1]) == Some(r)
    ensures Sourced(data + [r], fetched, source + [|fetched| - 1], detail)
  {
    var d := data + [r];
    var src := source + [|fetched| - 1];
    forall i | 0 <= i < |d|
      ensures src[i] < |fetched| && detail(fetched[src[i]]) == Some(d[i])
    {
      if i < |data| {
        assert d[i] == data[i] && src[i] == source[i];
      }
    }
  }

  /** One detail-page visit of the accumulators that keep complete, distinct records:
      the URL joins the fetched list and its record is kept as `KeepDistinct` decides. */
  method FetchAndKeep(u: string, detail: string -> Option<Record>, data0: seq<Record>,
                      ghost fetched0: seq<string>, ghost source0: seq<nat>)
    returns (data: seq<Record>, ghost fetched: seq<string>, ghost source: seq<nat>)
    requires DistinctNames(data0) && Sourced(data0, fetched0, source0, detail)
    ensures fetched == fetched0 + [u]
    ensures data == if detail(u).Some? && Complete(detail(u).value)
                       && forall i :: 0 <= i < |data0| ==> data0[i].name != detail(u).value.name
                    then data0 + [detail(u).value] else data0
    ensures DistinctNames(data) && Sourced(data, fetched, source, detail)
  {
    SourcedAfterFetch(data0, fetched0, source0, detail, u);
    fetched, source := fetched0 + [u], source0;
    var kept;
    data, kept := KeepDistinct(data0, detail(u));
    if kept {
      SourcedAfterKeep(data0, fetched, source, detail, detail(u).value);
      source := source + [|fetched| - 1];
    }
  }

  /** Appending a URL not yet in a list of distinct URLs keeps them distinct. */
  lemma AppendKeepsDistinctUrls(fetched: seq<string>, u: string)
    requires Distinct(fetched) && u !in fetched
    ensures Distinct(fetched + [u])
  {
    var f := fetched + [u];
    forall i, j | 0 <= i < j < |f| ensures f[i] != f[j] {
      if j == |fetched| {
        assert f[i] == fetched[i];
      }
    }
  }

  // ---------------------------------------------------------------------------------
  // What an accumulator loop opens and keeps

  /** The keep rule of 1-2.py and scraper.py: complete, and no held record has the name. */
  predicate NewComplete(held: seq<Record>, r: Record) {
    Complete(r) && forall i :: 0 <= i < |held| ==> held[i].name != r.name
  }

  /** The keep rule of 6.6.py and 5.5.py: the record has a name. */
  predicate Named(held: seq<Record>, r: Record) {
    r.name != ""
  }

  /** The keep rule of Untitled-1.py: every record parsed. */
  predicate AnyRecord(held: seq<Record>, r: Record) {
    true
  }

  /** The keep rule of the 2-2.py loops: complete, duplicates allowed. */
  predicate CompleteOnly(held: seq<Record>, r: Record) {
    Complete(r)
  }

  /** The records a loop holds after opening `urls` in order, starting from `held0`: the
      record scraped from each URL (`detail`, None when the scrape failed) is appended
      when `keep` accepts it given the records held at that moment. Every record added
      was accepted by the rule, and nothing held before is lost. */
  function KeepAll(held0: seq<Record>, urls: seq<string>, detail: string -> Option<Record>,
                   keep: (seq<Record>, Record) -> bool): (held: seq<Record>)
    ensures |held0| <= |held| <= |held0| + |urls|
    ensures held[..|held0|] == held0
    ensures forall i :: |held0| <= i < |held| ==> keep(held[..i], held[i])
    decreases |urls|
  {
    if urls == [] then held0
    else
      var before := KeepAll(held0, urls[..|urls| - 1], detail, keep);
      var found := detail(urls[|urls| - 1]);
      if found.Some? && keep(before, found.value) then
        var held := before + [found.value];
        assert held[..|before|] == before;
        assert forall i :: |held0| <= i < |before| ==> held[..i] == before[..i];
        held
      else before
  }

  /** Every URL was opened while fewer than maxRecords records were held. */
  predicate UnderCap(held0: seq<Record>, urls: seq<string>, detail: string -> Option<Record>,
                     keep: (seq<Record>, Record) -> bool, maxRecords: nat)
    decreases |urls|
  {
    urls == [] ||
      (UnderCap(held0, urls[..|urls| - 1], detail, keep, maxRecords)
       && |KeepAll(held0, urls[..|urls| - 1], detail, keep)| < maxRecords)
  }

  /** Opening one more URL below the cap: the records held grow as the keep rule says. */
  lemma OpenOne(held0: seq<Record>, urls: seq<string>, u: string, detail: string -> Option<Record>,
                keep: (seq<Record>, Record) -> bool, maxRecords: nat)
    requires UnderCap(held0, urls, detail, keep, maxRecords)
    requires |KeepAll(held0, urls, detail, keep)| < maxRecords
    ensures UnderCap(held0, urls + [u], detail, keep, maxRecords)
    ensures var held := KeepAll(held0, urls, detail, keep);
            KeepAll(held0, urls + [u], detail, keep)
              == if detail(u).Some? && keep(held, detail(u).value) then held + [detail(u).value] else held
  {
    assert (urls + [u])[..|urls|] == urls;
  }

  /** One more URL opened after the first j. */
  lemma OpenedThrough(start: seq<string>, urls: seq<string>, j: nat)
    requires j < |urls|
    ensures start + urls[..j + 1] == (start + urls[..j]) + [urls[j]]
  {
    assert urls[..j + 1] == urls[..j] + [urls[j]];
  }

  /** A loop that opens every URL in turn, one more URL below the cap: the records are
      still what `KeepAll` keeps from the URLs opened so far. */
  lemma KeepStep(held0: seq<Record>, urls: seq<string>, j: nat, detail: string -> Option<Record>,
                 keep: (seq<Record>, Record) -> bool, maxRecords: nat, held: seq<Record>, held': seq<Record>)
    requires j < |urls|
    requires held == KeepAll(held0, urls[..j], detail, keep) && UnderCap(held0, urls[..j], detail, keep, maxRecords)
    requires |held| < maxRecords
    requires var found := detail(urls[j]);
             held' == if found.Some? && keep(held, found.value) then held + [found.value] else held
    ensures held' == KeepAll(held0, urls[..j + 1], detail, keep)
    ensures UnderCap(held0, urls[..j + 1], detail, keep, maxRecords)
  {
    OpenOne(held0, urls[..j], urls[j], detail, keep, maxRecords);
    assert urls[..j + 1] == urls[..j] + [urls[j]];
  }

  /** Keeping from two runs of URLs is keeping from the first, then from the second. */
  lemma {:induction false} KeepAllAppend(held0: seq<Record>, a: seq<string>, b: seq<string>,
                                         detail: string -> Option<Record>, keep: (seq<Record>, Record) -> bool)
    ensures KeepAll(held0, a + b, detail, keep) == KeepAll(KeepAll(held0, a, detail, keep), b, detail, keep)
    decreases |b|
  {
    if b == [] {
      assert a + b == a;
    } else {
      var b' := b[..|b| - 1];
      assert (a + b)[..|a + b| - 1] == a + b';
      assert (a + b)[|a + b| - 1] == b[|b| - 1];
      KeepAllAppend(held0, a, b', detail, keep);
    }
  }

  /** Two runs each opened below the cap make one run opened below the cap. */
  lemma {:induction false} UnderCapAppend(held0: seq<Record>, a: seq<string>, b: seq<string>,
                                          detail: string -> Option<Record>, keep: (seq<Record>, Record) -> bool,
                                          maxRecords: nat)
    requires UnderCap(held0, a, detail, keep, maxRecords)
    requires UnderCap(KeepAll(held0, a, detail, keep), b, detail, keep, maxRecords)
    ensures UnderCap(held0, a + b, detail, keep, maxRecords)
    decreases |b|
  {
    if b == [] {
      assert a + b == a;
    } else {
      var b' := b[..|b| - 1];
      assert (a + b)[..|a + b| - 1] == a + b';
      UnderCapAppend(held0, a, b', detail, keep, maxRecords);
      KeepAllAppend(held0, a, b', detail, keep);
    }
  }

  /** The elements of a list of URLs. */
  function SetOf(s: seq<string>): (r: set<string>)
    ensures |r| <= |s|
    decreases |s|
  {
    if s == [] then {} else SetOf(s[..|s| - 1]) + {s[|s| - 1]}
  }

  /** A URL is an element of the list exactly when it occurs in it. */
  lemma {:induction false} InSetOf(s: seq<string>, x: string)
    ensures x in SetOf(s) <==> x in s
    decreases |s|
  {
    if s != [] {
      InSetOf(s[..|s| - 1], x);
      assert s == s[..|s| - 1] + [s[|s| - 1]];
    }
  }

  /** The elements of a list extended by one URL. */
  lemma SetOfStep(s: seq<string>, u: string)
    ensures SetOf(s + [u]) == SetOf(s) + {u}
  {
    assert (s + [u])[..|s|] == s;
  }

  /** The elements of two lists joined. */
  lemma SetOfAppend(a: seq<string>, b: seq<string>)
    ensures SetOf(a + b) == SetOf(a) + SetOf(b)
  {
    forall x ensures x in SetOf(a + b) <==> x in SetOf(a) + SetOf(b) {
      InSetOf(a + b, x);
      InSetOf(a, x);
      InSetOf(b, x);
    }
  }

  /** The URLs a link loop opens, in order: the target of each link (`target`, e.g. the
      link joined to the site root) that the loop wants and, when it keeps a visited set
      (`dedupe`), that is neither in `seen` nor opened already. */
  function Opened(links: seq<string>, target: string -> string, wanted: string -> bool,
                  dedupe: bool, seen: set<string>): (visits: seq<string>)
    ensures |visits| <= |links|
    ensures forall k :: 0 <= k < |visits| ==> wanted(visits[k])
    ensures dedupe ==> Distinct(visits) && forall k :: 0 <= k < |visits| ==> visits[k] !in seen
    decreases |links|
  {
    if links == [] then []
    else
      var before := Opened(links[..|links| - 1], target, wanted, dedupe, seen);
      var u := target(links[|links| - 1]);
      if wanted(u) && !(dedupe && (u in seen || u in before)) then
        assert dedupe ==> Distinct(before + [u]) by {
          if dedupe { AppendKeepsDistinctUrls(before, u); }
        }
        before + [u]
      else before
  }

  /** One more link: its target is opened when it is wanted and, under `dedupe`, neither
      seen nor opened already. */
  lemma OpenedStep(links: seq<string>, j: nat, target: string -> string, wanted: string -> bool,
                   dedupe: bool, seen: set<string>)
    requires j < |links|
    ensures var before := Opened(links[..j], target, wanted, dedupe, seen);
            var u := target(links[j]);
            Opened(links[..j + 1], target, wanted, dedupe, seen)
              == if wanted(u) && !(dedupe && (u in seen || u in before)) then before + [u] else before
  {
    assert links[..j + 1][..j] == links[..j];
  }

  /** Opening two runs of links is opening the first, then the second with everything
      the first opened counted as seen. */
  lemma {:induction false} OpenedAppend(a: seq<string>, b: seq<string>, target: string -> string,
                                        wanted: string -> bool, dedupe: bool, seen: set<string>)
    ensures Opened(a + b, target, wanted, dedupe, seen)
            == Opened(a, target, wanted, dedupe, seen)
               + Opened(b, target, wanted, dedupe, seen + SetOf(Opened(a, target, wanted, dedupe, seen)))
    decreases |b|
  {
    var oa := Opened(a, target, wanted, dedupe, seen);
    var seen' := seen + SetOf(oa);
    if b == [] {
      assert a + b == a;
    } else {
      var b' := b[..|b| - 1];
      assert (a + b)[..|a + b| - 1] == a + b';
      assert (a + b)[|a + b| - 1] == b[|b| - 1];
      OpenedAppend(a, b', target, wanted, dedupe, seen);
      var ob' := Opened(b', target, wanted, dedupe, seen');
      var u := target(b[|b| - 1]);
      InSetOf(oa, u);
      assert (u in seen || u in oa + ob') <==> (u in seen' || u in ob');
    }
  }

  /** What the links up to n open is the start of what all of them open. */
  lemma OpenedPrefix(links: seq<string>, n: nat, target: string -> string, wanted: string -> bool,
                     dedupe: bool, seen: set<string>)
    requires n <= |links|
    ensures Opened(links[..n], target, wanted, dedupe, seen) <= Opened(links, target, wanted, dedupe, seen)
  {
    assert links == links[..n] + links[n..];
    OpenedAppend(links[..n], links[n..], target, wanted, dedupe, seen);
  }

  /** The links of a run of list pages, page after page. */
  function AllLinks(pages: seq<string>, linksOf: string -> seq<string>): seq<string>
    decreases |pages|
  {
    if pages == [] then [] else AllLinks(pages[..|pages| - 1], linksOf) + linksOf(pages[|pages| - 1])
  }

  /** The links walked page after page, when a page's links are not a function of the
      page alone (an order a set leaves open, or a filter on what was visited). */
  function Flatten(runs: seq<seq<string>>): seq<string>
    decreases |runs|
  {
    if runs == [] then [] else Flatten(runs[..|runs| - 1]) + runs[|runs| - 1]
  }

  /** One more page's run follows the links walked before it. */
  lemma FlattenStep(runs: seq<seq<string>>, run: seq<string>)
    ensures Flatten(runs + [run]) == Flatten(runs) + run
  {
    assert (runs + [run])[..|runs|] == runs;
  }

  /** Every page of the run had at least one link. */
  predicate EachHasLinks(pages: seq<string>, linksOf: string -> seq<string>)
    decreases |pages|
  {
    pages == [] || (EachHasLinks(pages[..|pages| - 1], linksOf) && linksOf(pages[|pages| - 1]) != [])
  }

  /** One more page with links keeps the run's pages all with links. */
  lemma EachHasLinksStep(pages: seq<string>, p: string, linksOf: string -> seq<string>)
    requires EachHasLinks(pages, linksOf) && linksOf(p) != []
    ensures EachHasLinks(pages + [p], linksOf)
  {
    assert (pages + [p])[..|pages|] == pages;
  }

  /** Page by page: each page of such a run had a link. */
  lemma {:induction false} EachHasLinksAt(pages: seq<string>, linksOf: string -> seq<string>)
    requires EachHasLinks(pages, linksOf)
    ensures forall i :: 0 <= i < |pages| ==> linksOf(pages[i]) != []
    decreases |pages|
  {
    if pages != [] {
      EachHasLinksAt(pages[..|pages| - 1], linksOf);
    }
  }

  /** The links of one more page follow the links of the pages before. */
  lemma AllLinksStep(pages: seq<string>, p: string, linksOf: string -> seq<string>)
    ensures AllLinks(pages + [p], linksOf) == AllLinks(pages, linksOf) + linksOf(p)
  {
    assert (pages + [p])[..|pages|] == pages;
  }

  /** What a link loop has done after its first j links, starting from the records
      `held0` and the seen URLs `seen0`: `added` lists the URLs it opened, exactly what
      `Opened` lists for those links, each below the cap; `held` is what `KeepAll` keeps
      from them and `seen` has grown by exactly them. */
  predicate Walked(links: seq<string>, j: nat, target: string -> string, wanted: string -> bool,
                   dedupe: bool, seen0: set<string>, held0: seq<Record>, detail: string -> Option<Record>,
                   keep: (seq<Record>, Record) -> bool, maxRecords: nat,
                   held: seq<Record>, seen: set<string>, added: seq<string>) {
    && j <= |links|
    && added == Opened(links[..j], target, wanted, dedupe, seen0)
    && held == KeepAll(held0, added, detail, keep)
    && UnderCap(held0, added, detail, keep, maxRecords)
    && seen == seen0 + SetOf(added)
  }

  /** Before the first link nothing is opened. */
  lemma WalkStart(links: seq<string>, target: string -> string, wanted: string -> bool,
                  dedupe: bool, seen0: set<string>, held0: seq<Record>, detail: string -> Option<Record>,
                  keep: (seq<Record>, Record) -> bool, maxRecords: nat)
    ensures Walked(links, 0, target, wanted, dedupe, seen0, held0, detail, keep, maxRecords, held0, seen0, [])
  {
    assert links[..0] == [];
  }

  /** The step the loops take for link j below the cap: its target is opened when it is
      wanted and, under `dedupe`, not seen, and the record scraped from it is kept as
      `keep` says; otherwise nothing changes. */
  predicate StepOf(h: string, target: string -> string, wanted: string -> bool, dedupe: bool,
                   detail: string -> Option<Record>, keep: (seq<Record>, Record) -> bool,
                   held: seq<Record>, seen: set<string>, added: seq<string>,
                   held': seq<Record>, seen': set<string>, added': seq<string>) {
    var u := target(h);
    if wanted(u) && !(dedupe && u in seen) then
      && added' == added + [u] && seen' == seen + {u}
      && held' == (if detail(u).Some? && keep(held, detail(u).value) then held + [detail(u).value] else held)
    else added' == added && seen' == seen && held' == held
  }

  /** A step below the cap keeps the walk what `Opened` and `KeepAll` say. */
  lemma WalkOn(links: seq<string>, j: nat, target: string -> string, wanted: string -> bool,
               dedupe: bool, seen0: set<string>, held0: seq<Record>, detail: string -> Option<Record>,
               keep: (seq<Record>, Record) -> bool, maxRecords: nat,
               held: seq<Record>, seen: set<string>, added: seq<string>,
               held': seq<Record>, seen': set<string>, added': seq<string>)
    requires Walked(links, j, target, wanted, dedupe, seen0, held0, detail, keep, maxRecords, held, seen, added)
    requires j < |links| && |held| < maxRecords
    requires StepOf(links[j], target, wanted, dedupe, detail, keep, held, seen, added, held', seen', added')
    ensures Walked(links, j + 1, target, wanted, dedupe, seen0, held0, detail, keep, maxRecords, held', seen', added')
  {
    var u := target(links[j]);
    OpenedStep(links, j, target, wanted, dedupe, seen0);
    OpenOne(held0, added, u, detail, keep, maxRecords);
    InSetOf(added, u);
    SetOfStep(added, u);
  }

  /** One more list page in a crawl. The crawl so far opened exactly what the links of
      the pages before open; the page's loop opened what its first `stop` links open with
      everything opened so far counted as seen, each below the cap. Then the crawl has
      opened what the links before, followed by those `stop` links, open, and the records
      are those kept from everything opened. */
  lemma PageStep(before: seq<string>, links: seq<string>, stop: nat, fetched: seq<string>, added: seq<string>,
                 target: string -> string, wanted: string -> bool, dedupe: bool,
                 detail: string -> Option<Record>, keep: (seq<Record>, Record) -> bool, maxRecords: nat)
    requires stop <= |links|
    requires fetched == Opened(before, target, wanted, dedupe, {})
    requires added == Opened(links[..stop], target, wanted, dedupe, SetOf(fetched))
    requires UnderCap([], fetched, detail, keep, maxRecords)
    requires UnderCap(KeepAll([], fetched, detail, keep), added, detail, keep, maxRecords)
    ensures fetched + added == Opened((before + links)[..|before| + stop], target, wanted, dedupe, {})
    ensures UnderCap([], fetched + added, detail, keep, maxRecords)
    ensures KeepAll([], fetched + added, detail, keep) == KeepAll(KeepAll([], fetched, detail, keep), added, detail, keep)
  {
    assert (before + links)[..|before| + stop] == before + links[..stop];
    OpenedAppend(before, links[..stop], target, wanted, dedupe, {});
    assert {} + SetOf(fetched) == SetOf(fetched);
    UnderCapAppend([], fetched, added, detail, keep, maxRecords);
    KeepAllAppend([], fetched, added, detail, keep);
  }

  /** What a crawl over list pages has done when `all` lists the links of the pages it
      requested, page after page: it opened what the first `examined` of them open, all
      of them unless the cap was reached; `held` is what `KeepAll` keeps from the opened
      URLs, each opened below the cap, and `seen` holds exactly the opened URLs. */
  predicate Crawled(all: seq<string>, target: string -> string, wanted: string -> bool, dedupe: bool,
                    detail: string -> Option<Record>, keep: (seq<Record>, Record) -> bool, maxRecords: nat,
                    held: seq<Record>, seen: set<string>, fetched: seq<string>, examined: nat) {
    && examined <= |all|
    && (examined == |all| || |held| >= maxRecords)
    && fetched == Opened(all[..examined], target, wanted, dedupe, {})
    && held == KeepAll([], fetched, detail, keep)
    && UnderCap([], fetched, detail, keep, maxRecords)
    && seen == SetOf(fetched)
  }

  /** Before the first page nothing is opened. */
  lemma CrawlStart(target: string -> string, wanted: string -> bool, dedupe: bool,
                   detail: string -> Option<Record>, keep: (seq<Record>, Record) -> bool, maxRecords: nat)
    ensures Crawled([], target, wanted, dedupe, detail, keep, maxRecords, [], {}, [], 0)
  {
  }

  /** Below the cap every link walked so far was examined: the URLs seen are exactly
      those `Opened` lists for all of them. */
  lemma CrawledWhole(all: seq<string>, target: string -> string, wanted: string -> bool, dedupe: bool,
                     detail: string -> Option<Record>, keep: (seq<Record>, Record) -> bool, maxRecords: nat,
                     held: seq<Record>, seen: set<string>, fetched: seq<string>, examined: nat)
    requires Crawled(all, target, wanted, dedupe, detail, keep, maxRecords, held, seen, fetched, examined)
    requires |held| < maxRecords
    ensures seen == SetOf(Opened(all, target, wanted, dedupe, {}))
  {
    assert all[..examined] == all;
  }

  /** A page without links adds nothing. */
  lemma CrawlEmpty(all: seq<string>, all': seq<string>, target: string -> string, wanted: string -> bool,
                   dedupe: bool, detail: string -> Option<Record>, keep: (seq<Record>, Record) -> bool,
                   maxRecords: nat, held: seq<Record>, seen: set<string>, fetched: seq<string>, examined: nat)
    requires Crawled(all, target, wanted, dedupe, detail, keep, maxRecords, held, seen, fetched, examined)
    requires all' == all + []
    ensures Crawled(all', target, wanted, dedupe, detail, keep, maxRecords, held, seen, fetched, examined)
  {
    assert all + [] == all;
  }

  /** A page whose link loop, started below the cap with everything opened so far as
      seen, opened what its first `stop` links open (all of them unless it reached the
      cap) and kept what `KeepAll` keeps: the crawl has then examined those links too. */
  lemma CrawlOn(all: seq<string>, links: seq<string>, all': seq<string>, target: string -> string, wanted: string -> bool,
                dedupe: bool, detail: string -> Option<Record>, keep: (seq<Record>, Record) -> bool,
                maxRecords: nat, held: seq<Record>, seen: set<string>, fetched: seq<string>, examined: nat,
                stop: nat, added: seq<string>, held': seq<Record>, seen': set<string>, fetched': seq<string>,
                examined': nat)
    requires Crawled(all, target, wanted, dedupe, detail, keep, maxRecords, held, seen, fetched, examined)
    requires |held| < maxRecords
    requires stop <= |links| && (stop == |links| || |held'| >= maxRecords)
    requires added == Opened(links[..stop], target, wanted, dedupe, seen)
    requires held' == KeepAll(held, added, detail, keep)
    requires UnderCap(held, added, detail, keep, maxRecords)
    requires seen' == seen + SetOf(added) && fetched' == fetched + added && examined' == |all| + stop
    requires all' == all + links
    ensures Crawled(all', target, wanted, dedupe, detail, keep, maxRecords, held', seen', fetched', examined')
  {
    assert examined == |all| && all[..examined] == all;
    PageStep(all, links, stop, fetched, added, target, wanted, dedupe, detail, keep, maxRecords);
    assert fetched' == Opened(all'[..examined'], target, wanted, dedupe, {});
    assert held' == KeepAll([], fetched', detail, keep);
    assert seen' == SetOf(fetched') by {
      SetOfAppend(fetched, added);
    }
  }

  /** The target of a link, for the loops that take it as it is. */
  function AsIs(): string -> string {
    h => h
  }

  /** The target of a link in the loops that join it to the site root (`join`) unless
      it starts with `http`. */
  function HttpOrJoined(join: string -> string): string -> string {
    h => if StartsWith(h, "http") then h else join(h)
  }

  /** Every link is wanted, for the loops that do not filter. */
  function Anything(): string -> bool {
    h => true
  }

  // ---------------------------------------------------------------------------------
  // SSL

  /** The guard every `check_ssl` starts with: no URL, or one that does not start with
      `https://`, is not SSL. */
  predicate HttpsGuard(url: string) {
    url != "" && StartsWith(url, "https://")
  }

  /** `check_ssl` in the scripts that also open a TLS connection: the guard, then the
      handshake, whose outcome (`handshakeOk`) comes from the network. No connection is
      attempted, and False is returned, when the guard fails. */
  function CheckSslWithHandshake(url: string, handshakeOk: bool): (ssl: bool)
    ensures ssl ==> StartsWith(url, "https://")
    ensures !HttpsGuard(url) ==> !ssl
    ensures HttpsGuard(url) ==> ssl == handshakeOk
  {
    if url == "" then false
    else if StartsWith(url, "https://") then handshakeOk
    else false
  }

  /** An empty URL is never SSL, whatever the network would say. */
  lemma EmptyUrlNotSsl(handshakeOk: bool)
    ensures !CheckSslWithHandshake("", handshakeOk)
  {
  }

  // ---------------------------------------------------------------------------------
  // Selector fall-back chains

  /** The first selector that found an element, or "" when none did. `None` stands for
      a selector that found nothing. */
  function FirstFound(hits: seq<Option<string>>): (v: string)
    ensures (forall i :: 0 <= i < |hits| ==> hits[i].None?) ==> v == ""
    ensures (exists i :: 0 <= i < |hits| && hits[i].Some?) ==>
              exists k :: 0 <= k < |hits| && hits[k] == Some(v) && NoneBefore(hits, k)
  {
    if hits == [] then ""
    else if hits[0].Some? then hits[0].value
    else
      var v := FirstFound(hits[1..]);
      FirstFoundTail(hits, v);
      v
  }

  predicate NoneBefore(hits: seq<Option<string>>, k: nat)
    requires k <= |hits|
  {
    forall m :: 0 <= m < k ==> hits[m].None?
  }

  /** The step of FirstFound past a first selector that found nothing. */
  lemma FirstFoundTail(hits: seq<Option<string>>, v: string)
    requires hits != [] && hits[0].None?
    requires (forall i :: 0 <= i < |hits[1..]| ==> hits[1..][i].None?) ==> v == ""
    requires (exists i :: 0 <= i < |hits[1..]| && hits[1..][i].Some?) ==>
               exists k :: 0 <= k < |hits[1..]| && hits[1..][k] == Some(v) && NoneBefore(hits[1..], k)
    ensures (forall i :: 0 <= i < |hits| ==> hits[i].None?) ==> v == ""
    ensures (exists i :: 0 <= i < |hits| && hits[i].Some?) ==>
              exists k :: 0 <= k < |hits| && hits[k] == Some(v) && NoneBefore(hits, k)
  {
    if exists i :: 0 <= i < |hits| && hits[i].Some? {
      var i :| 0 <= i < |hits| && hits[i].Some?;
      assert hits[1..][i - 1].Some?;
      var k :| 0 <= k < |hits[1..]| && hits[1..][k] == Some(v) && NoneBefore(hits[1..], k);
      assert hits[k + 1] == Some(v);
      assert NoneBefore(hits, k + 1) by {
        forall m | 0 <= m < k + 1 ensures hits[m].None? {
          if m > 0 { assert hits[m] == hits[1..][m - 1]; }
        }
      }
    } else {
      forall i | 0 <= i < |hits[1..]| ensures hits[1..][i].None? {
        assert hits[1..][i] == hits[i + 1];
      }
    }
  }

  /** `for sel in selectors: elem = find(sel); if elem: v = elem.text; break`. */
  method TakeFirstFound(hits: seq<Option<string>>) returns (v: string)
    ensures v == FirstFound(hits)
  {
    v := "";
    var i := 0;
    while i < |hits|
      invariant 0 <= i <= |hits|
      invariant forall m :: 0 <= m < i ==> hits[m].None?
      invariant FirstFound(hits) == FirstFound(hits[i..])
    {
      if hits[i].Some? {
        v := hits[i].value;
        return;
      }
      assert hits[i..][1..] == hits[i + 1..];
      i := i + 1;
    }
  }

  /** The first non-empty text among the elements found, or "". */
  function FirstNonEmpty(hits: seq<Option<string>>): (v: string)
    ensures v == "" <==> forall i :: 0 <= i < |hits| ==> hits[i].None? || hits[i].value == ""
    ensures v != "" ==> exists k :: 0 <= k < |hits| && hits[k] == Some(v)
                                    && forall m :: 0 <= m < k ==> hits[m].None? || hits[m].value == ""
  {
    if hits == [] then ""
    else if hits[0].Some? && hits[0].value != "" then hits[0].value
    else
      var v := FirstNonEmpty(hits[1..]);
      assert forall i :: 1 <= i < |hits| ==> hits[i] == hits[1..][i - 1];
      if v != "" then
        var k :| 0 <= k < |hits[1..]| && hits[1..][k] == Some(v)
                 && forall m :: 0 <= m < k ==> hits[1..][m].None? || hits[1..][m].value == "";
        assert hits[k + 1] == Some(v);
        v
      else v
  }

  /** The texts of the elements found, each stripped. */
  function StripHits(hits: seq<Option<string>>): (r: seq<Option<string>>)
    ensures |r| == |hits|
    ensures forall i :: 0 <= i < |hits| ==> r[i].Some? == hits[i].Some?
    ensures forall i :: 0 <= i < |hits| && hits[i].Some? ==> r[i].value == Strip(hits[i].value)
  {
    seq(|hits|, i requires 0 <= i < |hits| => if hits[i].Some? then Some(Strip(hits[i].value)) else None)
  }

  /** `for sel in selectors: try: v = find(sel).text.strip(); if v: break  except: continue`:
      a selector that finds nothing leaves v as it was, one that finds an empty text sets
      it to "". */
  method TakeFirstNonEmpty(hits: seq<Option<string>>) returns (v: string)
    ensures v == FirstNonEmpty(hits)
  {
    v := "";
    var i := 0;
    while i < |hits|
      invariant 0 <= i <= |hits|
      invariant v == ""
      invariant forall m :: 0 <= m < i ==> hits[m].None? || hits[m].value == ""
      invariant FirstNonEmpty(hits) == FirstNonEmpty(hits[i..])
    {
      if hits[i].Some? {
        v := hits[i].value;
        if v != "" {
          return;
        }
      }
      assert hits[i..][1..] == hits[i + 1..];
      i := i + 1;
    }
  }

  // ---------------------------------------------------------------------------------
  // Phone numbers

  predicate IsTelChar(c: char) {
    IsAsciiDigit(c) || c == '-'
  }

  predicate AllTelChars(s: string) {
    forall i :: 0 <= i < |s| ==> IsTelChar(s[i])
  }

  /** `re.sub(r'[^0-9\-]', '', s)`: everything but ASCII digits and '-' deleted. */
  function SanitizeTel(s: string): (t: string)
    ensures AllTelChars(t)
    ensures |t| <= |s|
  {
    if s == [] then []
    else if IsTelChar(s[0]) then [s[0]] + SanitizeTel(s[1..])
    else SanitizeTel(s[1..])
  }

  /** A text that already holds only digits and '-' is left unchanged, so sanitising
      twice is the same as once. */
  lemma {:induction false} SanitizeTelFixed(s: string)
    requires AllTelChars(s)
    ensures SanitizeTel(s) == s
  {
    if s != [] {
      SanitizeTelFixed(s[1..]);
    }
  }

  lemma SanitizeTelIdempotent(s: string)
    ensures SanitizeTel(SanitizeTel(s)) == SanitizeTel(s)
  {
    SanitizeTelFixed(SanitizeTel(s));
  }

  /** Sanitising keeps every digit and '-' in order: it distributes over concatenation. */
  lemma {:induction false} SanitizeTelAppend(a: string, b: string)
    ensures SanitizeTel(a + b) == SanitizeTel(a) + SanitizeTel(b)
  {
    if a == [] {
      assert a + b == b;
    } else {
      assert (a + b)[0] == a[0];
      assert (a + b)[1..] == a[1..] + b;
      SanitizeTelAppend(a[1..], b);
    }
  }

  /** The phone number the tel-selector chain settles on: the first found element whose
      sanitised text is non-empty, or "". */
  function FirstTel(hits: seq<Option<string>>): (tel: string)
    ensures AllTelChars(tel)
    ensures tel == "" <==> forall i :: 0 <= i < |hits| ==> hits[i].None? || SanitizeTel(hits[i].value) == ""
    ensures tel != "" ==> exists k :: 0 <= k < |hits| && hits[k].Some? && tel == SanitizeTel(hits[k].value)
                                   && forall m :: 0 <= m < k ==> hits[m].None? || SanitizeTel(hits[m].value) == ""
  {
    if hits == [] then ""
    else if hits[0].Some? && SanitizeTel(hits[0].value) != "" then SanitizeTel(hits[0].value)
    else
      var tel := FirstTel(hits[1..]);
      assert forall i :: 1 <= i < |hits| ==> hits[i] == hits[1..][i - 1];
      if tel != "" then
        var k :| 0 <= k < |hits[1..]| && hits[1..][k].Some? && tel == SanitizeTel(hits[1..][k].value)
                 && forall m :: 0 <= m < k ==> hits[1..][m].None? || SanitizeTel(hits[1..][m].value) == "";
        assert hits[k + 1] == hits[1..][k];
        tel
      else tel
  }

  /** `for sel in tel_selectors: elem = find(sel); if elem: tel = re.sub(r'[^0-9\-]', '',
      elem.text.strip()); if tel: break`. */
  method PickTel(hits: seq<Option<string>>) returns (tel: string)
    ensures tel == FirstTel(hits)
  {
    tel := "";
    var i := 0;
    while i < |hits|
      invariant 0 <= i <= |hits|
      invariant tel == ""
      invariant FirstTel(hits) == FirstTel(hits[i..])
    {
      if hits[i].Some? {
        tel := SanitizeTel(Strip(hits[i].value));
        SanitizeStripped(hits[i].value);
        if tel != "" {
          return;
        }
      }
      assert hits[i..][1..] == hits[i + 1..];
      i := i + 1;
    }
  }

  /** Stripping before sanitising changes nothing: the whitespace it cuts is deleted by
      the sanitiser anyway. */
  lemma SanitizeStripped(s: string)
    ensures SanitizeTel(Strip(s)) == SanitizeTel(s)
  {
    var head, tail := StripPieces(s);
    SanitizeTelAppend(head + Strip(s), tail);
    SanitizeTelAppend(head, Strip(s));
    SanitizeSpace(head);
    SanitizeSpace(tail);
  }


  lemma {:induction false} SanitizeSpace(s: string)
    requires forall i :: 0 <= i < |s| ==> IsSpace(s[i])
    ensures SanitizeTel(s) == ""
  {
    if s != [] {
      assert !IsTelChar(s[0]);
      SanitizeSpace(s[1..]);
    }
  }

  // ---------------------------------------------------------------------------------
  // Official link

  /** A link of the shop page: its text (stripped) and its href. */
  datatype Link = Link(text: string, href: string)

  /** The link the official-URL loop accepts: its text holds one of the keywords, its
      href starts with `http` and does not mention `exclude`. */
  predicate OfficialCandidate(l: Link, keywords: seq<string>, exclude: string) {
    ContainsAny(l.text, keywords) && StartsWith(l.href, "http") && !Contains(l.href, exclude)
  }

  /** `for link in links: if any(kw in text …): if href.startswith('http') and exclude not
      in href: official_url = href; break`. */
  method PickOfficialUrl(links: seq<Link>, keywords: seq<string>, exclude: string) returns (url: string)
    ensures url == "" ==> forall i :: 0 <= i < |links| ==> !OfficialCandidate(links[i], keywords, exclude)
    ensures url != "" ==> exists k :: 0 <= k < |links| && url == links[k].href
                                      && OfficialCandidate(links[k], keywords, exclude)
                                      && forall m :: 0 <= m < k ==> !OfficialCandidate(links[m], keywords, exclude)
    ensures url != "" ==> StartsWith(url, "http")
  {
    url := "";
    var i := 0;
    while i < |links|
      invariant 0 <= i <= |links|
      invariant url == ""
      invariant forall m :: 0 <= m < i ==> !OfficialCandidate(links[m], keywords, exclude)
    {
      var l := links[i];
      var hit := HasAnyKeyword(l.text, keywords);
      if hit {
        if StartsWith(l.href, "http") && !Contains(l.href, exclude) {
          url := l.href;
          assert OfficialCandidate(links[i], keywords, exclude);
          return;
        }
      }
      i := i + 1;
    }
  }

  /** `any(kw in text for kw in keywords)` */
  method HasAnyKeyword(text: string, keywords: seq<string>) returns (hit: bool)
    ensures hit <==> ContainsAny(text, keywords)
  {
    var k := 0;
    while k < |keywords|
      invariant 0 <= k <= |keywords|
      invariant forall m :: 0 <= m < k ==> !Contains(text, keywords[m])
    {
      if Contains(text, keywords[k]) {
        return true;
      }
      k := k + 1;
    }
    return false;
  }

  // ---------------------------------------------------------------------------------
  // List-page URLs

  /** The list URL of a page: the base for page 1, otherwise the page number appended as
      a query parameter, with `&` when the base already has a query and `?` otherwise. */
  function PageUrl(base: string, page: nat): (url: string)
    requires page >= 1
    ensures page == 1 ==> url == base
    ensures page > 1 ==> |url| > |base| + 3 && StartsWith(url, base)
                         && url[|base|..|base| + 3] == (if '?' in base then "&p=" else "?p=")
                         && forall i :: |base| + 3 <= i < |url| ==> IsAsciiDigit(url[i])
  {
    if page == 1 then base
    else if '?' in base then base + "&p=" + NatToDecimal(page)
    else base + "?p=" + NatToDecimal(page)
  }

  /** The page number is read back from the URL of any page after the first. */
  lemma PageUrlPageNumber(base: string, page: nat)
    requires page > 1
    ensures var url := PageUrl(base, page);
            |url| > |base| + 3 && StartsWith(url, base)
            && (forall i :: |base| + 3 <= i < |url| ==> IsAsciiDigit(url[i]))
            && ParseDecimal(url[|base| + 3..]) == page
  {
    var url := PageUrl(base, page);
    assert url[|base| + 3..] == NatToDecimal(page);
    assert url[..|base|] == base;
    DecimalRoundTrip(page);
  }

  /** Different pages have different URLs, so no list page is requested twice. */
  lemma PageUrlInjective(base: string, p: nat, q: nat)
    requires p >= 1 && q >= 1 && PageUrl(base, p) == PageUrl(base, q)
    ensures p == q
  {
    if p > 1 && q > 1 {
      PageUrlPageNumber(base, p);
      PageUrlPageNumber(base, q);
    }
  }

  /** The list URLs of pages 1 to n, in order. */
  function Pages(base: string, n: nat): (urls: seq<string>)
    ensures |urls| == n
  {
    if n == 0 then [] else Pages(base, n - 1) + [PageUrl(base, n)]
  }

  /** Entry i of `Pages` is the URL of page i + 1. */
  lemma {:induction false} PagesAt(base: string, urls: seq<string>)
    requires urls == Pages(base, |urls|)
    ensures forall i :: 0 <= i < |urls| ==> urls[i] == PageUrl(base, i + 1)
  {
    if urls != [] {
      PagesAt(base, urls[..|urls| - 1]);
    }
  }

  /** `base_url if page == 1 else f"{base_url}?p={page}"`: the variant that always uses `?`. */
  function PlainPageUrl(base: string, page: nat): (url: string)
    requires page >= 1
    ensures page == 1 ==> url == base
    ensures page > 1 ==> |url| > |base| + 3 && StartsWith(url, base) && url[|base|..|base| + 3] == "?p="
                         && forall i :: |base| + 3 <= i < |url| ==> IsAsciiDigit(url[i])
  {
    if page == 1 then base else base + "?p=" + NatToDecimal(page)
  }

  /** The plain list URLs of pages 1 to n, in order. */
  function PlainPages(base: string, n: nat): (urls: seq<string>)
    ensures |urls| == n
  {
    if n == 0 then [] else PlainPages(base, n - 1) + [PlainPageUrl(base, n)]
  }

  /** Entry i of `PlainPages` is the plain URL of page i + 1. */
  lemma {:induction false} PlainPagesAt(base: string, urls: seq<string>)
    requires urls == PlainPages(base, |urls|)
    ensures forall i :: 0 <= i < |urls| ==> urls[i] == PlainPageUrl(base, i + 1)
  {
    if urls != [] {
      PlainPagesAt(base, urls[..|urls| - 1]);
    }
  }

  /** The two builders agree exactly when the base has no query or the page is the first;
      for a base with a query the plain builder produces a second `?`. */
  lemma PlainPageUrlAgrees(base: string, page: nat)
    requires page >= 1
    ensures PlainPageUrl(base, page) == PageUrl(base, page) <==> (page == 1 || '?' !in base)
  {
    if page > 1 && '?' in base {
      var plain := PlainPageUrl(base, page);
      var amp := PageUrl(base, page);
      assert plain[|base|] == '?' && amp[|base|] == '&';
    }
  }
}
