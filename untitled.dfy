/** The requests/BeautifulSoup crawler of exercise 1-1 (Untitled-1.py): its
    `split_address`, which cuts the text after the prefecture at the first character of
    a digit class, the scheme guard of its `check_ssl`, the store-link extraction of a
    search page and the `crawl_requests` loop that follows "next" links. */
module Untitled {
  import opened Text
  import opened Address
  import opened Scraping

  // ---------------------------------------------------------------------------------
  // split_address

  /** The class `[0-90-９-９]` as the regular-expression parser reads it: the range
      0-9, the range from ASCII `0` (U+0030) to the full-width `９` (U+FF19), then `-`
      and `９`. The second range takes in all kana and kanji. */
  predicate DigitClassAsWritten(c: char) {
    c == '-' || ('0' <= c <= '９')
  }

  /** The class evidently meant: an ASCII or a full-width digit. */
  predicate DigitClass(c: char) {
    ('0' <= c <= '9') || ('０' <= c <= '９')
  }

  /** The index of the first character of s that satisfies p, or |s|. */
  function FirstWhere(s: string, p: char -> bool): (i: nat)
    ensures i <= |s|
    ensures forall k :: 0 <= k < i ==> !p(s[k])
    ensures i < |s| ==> p(s[i])
  {
    if s == [] then 0
    else if p(s[0]) then 0
    else
      var i := FirstWhere(s[1..], p);
      assert forall k :: 1 <= k < i + 1 ==> s[k] == s[1..][k - 1];
      1 + i
  }

  /** `re.split(r"\s+", b, maxsplit=1)` followed by the strip of both parts: the text
      before the first whitespace run and the text after it, or (b, "") when b holds no
      whitespace. */
  function SplitOnSpace(b: string): (r: (string, string))
  {
    var i := FirstWhere(b, IsSpace);
    if i == |b| then (b, "")
    else (Strip(b[..i]), Strip(b[SkipSpace(b, i)..]))
  }

  /** b is banchi, a non-empty run of whitespace, then building; or b has no
      whitespace, is the banchi and the building is empty. */
  predicate SpaceCut(b: string, banchi: string, building: string) {
    && NoSpace(banchi)
    && |banchi| + |building| <= |b|
    && b == banchi + b[|banchi|..|b| - |building|] + building
    && (forall k :: |banchi| <= k < |b| - |building| ==> IsSpace(b[k]))
    && (building == "" <==> NoSpace(b))
    && (building != "" ==> banchi != "" && |banchi| < |b| - |building| && Framed(building))
  }

  /** On stripped text the split is a cut at the first whitespace run. */
  lemma SplitOnSpaceCut(b: string)
    requires Framed(b)
    ensures SpaceCut(b, SplitOnSpace(b).0, SplitOnSpace(b).1)
  {
    var i := FirstWhere(b, IsSpace);
    if i == |b| {
      assert NoSpace(b);
      assert b == b + b[|b|..|b|] + "";
    } else {
      CutAt(b, i);
    }
  }

  /** The cut at the first whitespace character i of framed text. */
  lemma CutAt(b: string, i: nat)
    requires Framed(b) && i < |b| && IsSpace(b[i])
    requires forall k :: 0 <= k < i ==> !IsSpace(b[k])
    ensures var j := SkipSpace(b, i);
            && Strip(b[..i]) == b[..i] && Strip(b[j..]) == b[j..]
            && SpaceCut(b, b[..i], b[j..])
  {
    var j := SkipSpace(b, i);
    var head, tail := b[..i], b[j..];
    CutParts(b, i, j);
    StripOfNoSpace(head);
    StripOfFramed(tail);
    SpaceCutIntro(b, head, tail, j);
  }

  /** The pieces around the first whitespace run of framed text. */
  lemma CutParts(b: string, i: nat, j: nat)
    requires Framed(b) && i < |b| && IsSpace(b[i]) && j == SkipSpace(b, i)
    requires forall k :: 0 <= k < i ==> !IsSpace(b[k])
    ensures 0 < i < j < |b|
    ensures NoSpace(b[..i]) && Framed(b[j..]) && b[j..] != "" && !NoSpace(b)
  {
    assert forall k :: 0 <= k < i ==> b[..i][k] == b[k];
    assert b[j..][0] == b[j] && b[j..][|b[j..]| - 1] == b[|b| - 1];
  }

  /** The pieces of a cut, put together. */
  lemma SpaceCutIntro(b: string, head: string, tail: string, j: nat)
    requires 0 < |head| < j < |b| && head == b[..|head|] && tail == b[j..]
    requires NoSpace(head) && Framed(tail) && tail != "" && !NoSpace(b)
    requires forall k :: |head| <= k < j ==> IsSpace(b[k])
    ensures SpaceCut(b, head, tail)
  {
    assert b == b[..|head|] + b[|head|..j] + b[j..];
  }

  /** A cut loses nothing but the whitespace between banchi and building. */
  lemma SpaceCutContent(b: string, banchi: string, building: string)
    requires SpaceCut(b, banchi, building)
    ensures RemoveSpace(banchi + building) == RemoveSpace(b)
  {
    var gap := b[|banchi|..|b| - |building|];
    assert b == banchi + gap + building;
    RemoveSpaceOfSpace(gap);
    RemoveSpaceAppend(banchi + gap, building);
    RemoveSpaceAppend(banchi, gap);
    RemoveSpaceAppend(banchi, building);
  }

  /** Strip keeps a slice of its input, so it adds no character of a class. */
  lemma StripAvoids(s: string, digit: char -> bool)
    requires forall k :: 0 <= k < |s| ==> !digit(s[k])
    ensures forall k :: 0 <= k < |Strip(s)| ==> !digit(Strip(s)[k])
  {
    var a := SkipSpace(s, 0);
    var r := Strip(s);
    forall k | 0 <= k < |r| ensures !digit(r[k]) {
      assert r[k] == s[a + k];
    }
  }

  /** The columns after the prefecture: the stripped text before the first character
      of the class, then the banchi and building cut from the stripped remainder; the
      whole text as city when no character belongs to the class. */
  function CutRest(rest: string, digit: char -> bool): (r: (string, string, string))
  {
    var idx := FirstWhere(rest, digit);
    if idx == |rest| then (rest, "", "")
    else
      var cut := SplitOnSpace(Strip(rest[idx..]));
      (Strip(rest[..idx]), cut.0, cut.1)
  }

  /** Cutting the text after the prefecture loses nothing but whitespace; the city holds
      no character of the class; there is no building without a banchi and a banchi
      before a building has no whitespace. */
  lemma CutRestColumns(rest: string, digit: char -> bool)
    ensures var r := CutRest(rest, digit);
            && RemoveSpace(r.0 + r.1 + r.2) == RemoveSpace(rest)
            && (forall k :: 0 <= k < |r.0| ==> !digit(r.0[k]))
            && (r.1 == "" ==> r.2 == "")
            && (r.2 != "" ==> NoSpace(r.1))
  {
    CutRestContent(rest, digit);
    var idx := FirstWhere(rest, digit);
    if idx < |rest| {
      var left := rest[..idx];
      assert forall k :: 0 <= k < |left| ==> left[k] == rest[k];
      StripAvoids(left, digit);
      var more := Strip(rest[idx..]);
      StripOfFramed(rest[idx..]);
      SplitOnSpaceCut(more);
    }
  }

  /** The three columns cut off the rest hold its text without the whitespace. */
  lemma CutRestContent(rest: string, digit: char -> bool)
    ensures var r := CutRest(rest, digit);
            RemoveSpace(r.0 + r.1 + r.2) == RemoveSpace(rest)
  {
    var idx := FirstWhere(rest, digit);
    if idx == |rest| {
      assert rest + "" + "" == rest;
    } else {
      var more := Strip(rest[idx..]);
      StripOfFramed(rest[idx..]);
      SplitOnSpaceCut(more);
      SpaceCutContent(more, SplitOnSpace(more).0, SplitOnSpace(more).1);
      CutContent(rest, idx, SplitOnSpace(more).0, SplitOnSpace(more).1);
    }
  }


  /** Stripping both sides of a cut and cutting the right side at its whitespace loses
      nothing but whitespace. */
  lemma CutContent(rest: string, idx: nat, banchi: string, building: string)
    requires idx <= |rest| && RemoveSpace(banchi + building) == RemoveSpace(Strip(rest[idx..]))
    ensures RemoveSpace(Strip(rest[..idx]) + banchi + building) == RemoveSpace(rest)
  {
    var left, right := rest[..idx], rest[idx..];
    var city := Strip(left);
    StripKeepsContent(right);
    StripKeepsContent(left);
    assert rest == left + right;
    RemoveSpaceAppend(left, right);
    RemoveSpaceAppend(city, banchi + building);
    ConcatAssoc(city, banchi, building);
  }

  lemma ConcatAssoc(a: string, b: string, c: string)
    ensures a + b + c == a + (b + c)
  {
  }


  /** `split_address` with the digit class as a parameter. */
  function SplitWith(address: string, digit: char -> bool): (r: Parts)
  {
    if address == "" then EMPTY_PARTS
    else
      var a := Strip(address);
      var pref := PrefectureOf(a);
      if pref == "" then Parts("", a, "", "")
      else
        var cut := CutRest(Strip(a[|pref|..]), digit);
        Parts(pref, cut.0, cut.1, cut.2)
  }

  /** What the split promises for any digit class: empty input gives four empty
      columns; the prefecture is the first listed name the stripped address starts with,
      and without one the whole stripped address is the city; after a prefecture the
      city holds no character of the class; there is no building without a banchi, and a
      banchi before a building has no whitespace. */
  lemma SplitWithColumns(address: string, digit: char -> bool)
    ensures var r := SplitWith(address, digit);
            && (address == "" ==> r == EMPTY_PARTS)
            && (address != "" ==> r.prefecture == PrefectureOf(Strip(address)))
            && (address != "" && r.prefecture == "" ==> r == Parts("", Strip(address), "", ""))
            && (r.prefecture != "" ==> forall k :: 0 <= k < |r.city| ==> !digit(r.city[k]))
            && (r.street == "" ==> r.building == "")
            && (r.building != "" ==> NoSpace(r.street))
  {
    if address != "" {
      var a := Strip(address);
      var pref := PrefectureOf(a);
      if pref != "" {
        CutRestColumns(Strip(a[|pref|..]), digit);
      }
    }
  }

  /** The four columns lose nothing but whitespace, whatever the digit class. */
  lemma SplitWithContent(address: string, digit: char -> bool)
    ensures RemoveSpace(Joined(SplitWith(address, digit))) == RemoveSpace(address)
  {
    if address != "" {
      var a := Strip(address);
      var pref := PrefectureOf(a);
      assert RemoveSpace(Joined(SplitWith(address, digit))) == RemoveSpace(a) by {
        if pref == "" {
          assert SplitWith(address, digit) == Parts("", a, "", "");
          assert "" + a + "" + "" == a;
        } else {
          PrefixedContent(a, pref, digit);
        }
      }
      StripKeepsContent(address);
    }
  }

  /** Behind a prefecture prefix, the columns lose nothing but whitespace. */
  lemma PrefixedContent(a: string, pref: string, digit: char -> bool)
    requires StartsWith(a, pref)
    ensures var cut := CutRest(Strip(a[|pref|..]), digit);
            RemoveSpace(Joined(Parts(pref, cut.0, cut.1, cut.2))) == RemoveSpace(a)
  {
    var tail := a[|pref|..];
    assert a == pref + tail;
    StripKeepsContent(tail);
    var rest := Strip(tail);
    CutRestContent(rest, digit);
    var cut := CutRest(rest, digit);
    JoinedGrouped(pref, cut.0, cut.1, cut.2);
    ContentUnderPrefix(pref, cut.0 + cut.1 + cut.2, tail);
  }

  lemma JoinedGrouped(pref: string, city: string, street: string, building: string)
    ensures Joined(Parts(pref, city, street, building)) == pref + (city + street + building)
  {
    assert pref + city + street + building == pref + (city + street + building);
  }

  lemma ContentUnderPrefix(pref: string, x: string, y: string)
    requires RemoveSpace(x) == RemoveSpace(y)
    ensures RemoveSpace(pref + x) == RemoveSpace(pref + y)
  {
    RemoveSpaceAppend(pref, x);
    RemoveSpaceAppend(pref, y);
  }


  /** `split_address` as written, with the class `[0-90-９-９]`: for any address that
      has a listed prefecture the city holds no kana, no kanji and no digit. */
  function SplitAddressAsWritten(address: string): (r: Parts)
    ensures RemoveSpace(Joined(r)) == RemoveSpace(address)
    ensures address == "" ==> r == EMPTY_PARTS
    ensures r.prefecture != "" ==> forall k :: 0 <= k < |r.city| ==> !('0' <= r.city[k] <= '９')
  {
    SplitWithColumns(address, DigitClassAsWritten);
    SplitWithContent(address, DigitClassAsWritten);
    SplitWith(address, DigitClassAsWritten)
  }

  /** `split_address` with the digit class the comment at the split describes: the
      columns lose nothing but whitespace; empty input gives four empty columns; without
      a listed prefecture the stripped address is the city; the prefecture is listed and
      starts the stripped address; the city of an address with a prefecture holds no
      ASCII or full-width digit, and a banchi starts with one. */
  function SplitAddress(address: string): (r: Parts)
    ensures RemoveSpace(Joined(r)) == RemoveSpace(address)
    ensures address == "" ==> r == EMPTY_PARTS
    ensures address != "" ==> r.prefecture == PrefectureOf(Strip(address))
    ensures address != "" && r.prefecture == "" ==> r == Parts("", Strip(address), "", "")
    ensures r.prefecture != "" ==> forall k :: 0 <= k < |r.city| ==> !DigitClass(r.city[k])
    ensures r.prefecture != "" && r.street != "" ==> DigitClass(r.street[0])
    ensures r.street == "" ==> r.building == ""
  {
    SplitWithColumns(address, DigitClass);
    SplitWithContent(address, DigitClass);
    BanchiStartsWithDigit(address);
    SplitWith(address, DigitClass)
  }

  /** With the intended class a banchi begins at a digit, which no whitespace precedes. */
  lemma BanchiStartsWithDigit(address: string)
    ensures var r := SplitWith(address, DigitClass);
            r.prefecture != "" && r.street != "" ==> DigitClass(r.street[0])
  {
    if address != "" {
      var a := Strip(address);
      var pref := PrefectureOf(a);
      if pref != "" {
        CutRestBanchi(Strip(a[|pref|..]));
      }
    }
  }

  /** The banchi cut off the rest starts at its first digit. */
  lemma CutRestBanchi(rest: string)
    ensures var r := CutRest(rest, DigitClass);
            r.1 != "" ==> DigitClass(r.1[0])
  {
    var idx := FirstWhere(rest, DigitClass);
    if idx < |rest| {
      var right := rest[idx..];
      assert right[0] == rest[idx] && !IsSpace(right[0]);
      StripFrame(right);
      assert SkipSpace(right, 0) == 0;
      var more := Strip(right);
      assert more[0] == rest[idx];
      StripOfFramed(right);
      SplitOnSpaceCut(more);
    }
  }


  /** The digit class at work on an address whose city is written in kana or kanji,
      such as 東京都千代田区丸の内1-1: as written, the first character after the
      prefecture already belongs to the class, so the city comes out empty and the
      whole remainder lands in the banchi; with the intended class the city is the text
      up to the first digit. */
  lemma KanjiCityLost(address: string, city: string, banchi: string)
    requires NoSpace(address) && PrefectureOf(address) != ""
    requires address == PrefectureOf(address) + city + banchi
    requires city != "" && forall k :: 0 <= k < |city| ==> IsKanaKanjiLetter(city[k]) && !IsAsciiLetter(city[k])
    requires banchi != "" && NoSpace(banchi) && IsAsciiDigit(banchi[0])
    ensures SplitAddressAsWritten(address) == Parts(PrefectureOf(address), "", city + banchi, "")
    ensures SplitAddress(address) == Parts(PrefectureOf(address), city, banchi, "")
  {
    KanjiCut(address, PrefectureOf(address), city, banchi);
  }

  /** The split of such an address once the prefecture is cut off. */
  lemma KanjiCut(address: string, pref: string, city: string, banchi: string)
    requires NoSpace(address) && address == pref + city + banchi
    requires city != "" && forall k :: 0 <= k < |city| ==> IsKanaKanjiLetter(city[k]) && !IsAsciiLetter(city[k])
    requires banchi != "" && NoSpace(banchi) && IsAsciiDigit(banchi[0])
    ensures Strip(address) == address
    ensures CutRest(Strip(address[|pref|..]), DigitClassAsWritten) == ("", city + banchi, "")
    ensures CutRest(Strip(address[|pref|..]), DigitClass) == (city, banchi, "")
  {
    assert address == pref + (city + banchi);
    RestAfterPrefix(address, pref, city + banchi);
    CutAsWritten(city, banchi);
    CutIntended(city, banchi);
  }

  /** Text without whitespace, and what follows its prefix, are left alone by strip. */
  lemma RestAfterPrefix(address: string, pref: string, rest: string)
    requires NoSpace(address) && address == pref + rest
    ensures Strip(address) == address && Strip(address[|pref|..]) == rest
  {
    StripOfNoSpace(address);
    assert address[|pref|..] == rest;
    assert NoSpace(rest) by {
      forall k | 0 <= k < |rest| ensures !IsSpace(rest[k]) {
        assert rest[k] == address[|pref| + k];
      }
    }
    StripOfNoSpace(rest);
  }

  /** As written, a kana or kanji first character is already a "digit". */
  lemma CutAsWritten(city: string, banchi: string)
    requires city != "" && IsKanaKanjiLetter(city[0]) && !IsAsciiLetter(city[0])
    requires NoSpace(city + banchi)
    ensures CutRest(city + banchi, DigitClassAsWritten) == ("", city + banchi, "")
  {
    var rest := city + banchi;
    assert rest[0] == city[0];
    assert FirstWhere(rest, DigitClassAsWritten) == 0;
    assert rest[0..] == rest && rest[..0] == "";
    StripOfNoSpace(rest);
    assert Strip("") == "";
    NoSpaceWhole(rest);
  }

  /** With the intended class the cut falls at the first ASCII digit. */
  lemma CutIntended(city: string, banchi: string)
    requires city != "" && forall k :: 0 <= k < |city| ==> IsKanaKanjiLetter(city[k]) && !IsAsciiLetter(city[k])
    requires banchi != "" && NoSpace(banchi) && IsAsciiDigit(banchi[0])
    ensures CutRest(city + banchi, DigitClass) == (city, banchi, "")
  {
    var rest := city + banchi;
    assert FirstWhere(rest, DigitClass) == |city| by {
      assert forall k :: 0 <= k < |city| ==> rest[k] == city[k];
      assert rest[|city|] == banchi[0];
    }
    assert rest[..|city|] == city && rest[|city|..] == banchi;
    assert NoSpace(city);
    StripOfNoSpace(city);
    StripOfNoSpace(banchi);
    NoSpaceWhole(banchi);
  }

  /** Text without whitespace is not cut. */
  lemma NoSpaceWhole(b: string)
    requires NoSpace(b)
    ensures SplitOnSpace(b) == (b, "")
  {
    assert FirstWhere(b, IsSpace) == |b|;
  }

  // ---------------------------------------------------------------------------------
  // check_ssl

  /** `url.lstrip(...)` of `urlsplit`: the leading C0 control characters and spaces. */
  function LStripControl(url: string): (u: string)
    ensures u == [] || u[0] > ' '
    ensures |u| <= |url| && u == url[|url| - |u|..]
  {
    if url != [] && url[0] <= ' ' then LStripControl(url[1..]) else url
  }

  /** The tab, carriage return and line feed characters `urlsplit` deletes. */
  function DropUnsafe(url: string): (u: string)
    ensures forall k :: 0 <= k < |u| ==> u[k] != '\t' && u[k] != '\r' && u[k] != '\n'
    ensures |u| <= |url|
  {
    if url == [] then []
    else if url[0] in {'\t', '\r', '\n'} then DropUnsafe(url[1..])
    else [url[0]] + DropUnsafe(url[1..])
  }

  /** `urlparse(url).scheme.lower() == "https"`: the cleaned URL starts with `https:` in
      any letter case. */
  predicate SchemeIsHttps(url: string) {
    var u := DropUnsafe(LStripControl(url));
    |u| >= 6 && AsciiLower(u[..5]) == "https" && u[5] == ':'
  }

  /** `check_ssl`: False for an empty URL or a scheme other than https, without any
      request; otherwise the outcome of the HEAD request (`requestOk`, from the
      network). */
  function CheckSsl(url: string, requestOk: bool): (ssl: bool)
    ensures url == "" ==> !ssl
    ensures !SchemeIsHttps(url) ==> !ssl
    ensures url != "" && SchemeIsHttps(url) ==> ssl == requestOk
  {
    if url == "" then false
    else if !SchemeIsHttps(url) then false
    else requestOk
  }

  /** Every URL the `https://` prefix guard of the other scripts lets through passes
      this scheme guard as well, and with the same network outcome the two checks
      agree on it. */
  lemma CheckSslAgrees(url: string, ok: bool)
    requires HttpsGuard(url)
    ensures CheckSsl(url, ok) == CheckSslWithHandshake(url, ok)
  {
    var head, rest := url[..6], url[6..];
    assert head == "https:" by {
      assert url[..8] == "https://";
    }
    assert url == head + rest;
    assert LStripControl(url) == url;
    DropUnsafePrefix(head, rest);
    DropUnsafeClean(head);
    var u := DropUnsafe(url);
    assert u == head + DropUnsafe(rest);
    assert u[..5] == "https" && u[5] == ':';
    LowerHttps();
    assert SchemeIsHttps(url);
  }

  lemma LowerHttps()
    ensures AsciiLower("https") == "https"
  {
    var r := AsciiLower("https");
    assert r[0] == 'h' && r[1] == 't' && r[2] == 't' && r[3] == 'p' && r[4] == 's';
  }


  /** A URL that starts with a visible character, holds no tab or line break and begins
      with `https:` in any letter case passes the scheme guard. */
  lemma SchemeOfClean(u: string)
    requires |u| >= 6 && u[0] > ' '
    requires forall k :: 0 <= k < |u| ==> u[k] != '\t' && u[k] != '\r' && u[k] != '\n'
    requires AsciiLower(u[..5]) == "https" && u[5] == ':'
    ensures SchemeIsHttps(u)
  {
    assert LStripControl(u) == u;
    DropUnsafeClean(u);
  }

  lemma UpperCaseSchemePasses()
    ensures SchemeIsHttps("HTTPS://a")
  {
    var u := "HTTPS://a";
    var lower := AsciiLower(u[..5]);
    assert lower[0] == 'h' && lower[1] == 't' && lower[2] == 't' && lower[3] == 'p' && lower[4] == 's';
    SchemeOfClean(u);
  }

  /** The scheme guard ignores letter case, which the prefix guard does not. */
  lemma UpperCaseScheme()
    ensures CheckSsl("HTTPS://a", true)
    ensures !CheckSslWithHandshake("HTTPS://a", true)
  {
    UpperCaseSchemePasses();
    UpperCaseNotPrefixed();
  }

  lemma UpperCaseNotPrefixed()
    ensures !CheckSslWithHandshake("HTTPS://a", true)
  {
    var u := "HTTPS://a";
    assert u[0] != 'h';
  }

  /** Deleting tab, carriage return and line feed works piecewise. */
  lemma {:induction false} DropUnsafePrefix(a: string, b: string)
    ensures DropUnsafe(a + b) == DropUnsafe(a) + DropUnsafe(b)
  {
    if a != [] {
      assert (a + b)[1..] == a[1..] + b;
      DropUnsafePrefix(a[1..], b);
    } else {
      assert a + b == b;
    }
  }

  /** Text without tab, carriage return or line feed is left as it is. */
  lemma {:induction false} DropUnsafeClean(a: string)
    requires forall k :: 0 <= k < |a| ==> a[k] != '\t' && a[k] != '\r' && a[k] != '\n'
    ensures DropUnsafe(a) == a
  {
    if a != [] {
      DropUnsafeClean(a[1..]);
    }
  }

  // ---------------------------------------------------------------------------------
  // extract_store_links_from_search

  /** `"/shop/" in href or "/rstr/" in href or "/pub/" in href` */
  predicate StoreHref(h: string) {
    Contains(h, "/shop/") || Contains(h, "/rstr/") || Contains(h, "/pub/")
  }

  /** The anchors of a search page, then `list(links)` of the set it fills: each store
      link once, joined to the site root by `siteJoin` (`urljoin`), in an order the set
      leaves open. */
  method ExtractStoreLinks(anchors: seq<Link>, siteJoin: string -> string) returns (links: seq<string>)
    ensures Distinct(links)
    ensures forall u :: u in links <==> exists k :: 0 <= k < |anchors| && StoreHref(anchors[k].href)
                                                    && u == siteJoin(anchors[k].href)
  {
    var found: set<string> := {};
    for i := 0 to |anchors|
      invariant forall u :: u in found <==> exists k :: 0 <= k < i && StoreHref(anchors[k].href)
                                                       && u == siteJoin(anchors[k].href)
    {
      var href := anchors[i].href;
      if Contains(href, "/shop/") || Contains(href, "/rstr/") || Contains(href, "/pub/") {
        found := found + {siteJoin(href)};
      }
    }
    var pending := found;
    links := [];
    while pending != {}
      invariant Distinct(links)
      invariant forall u :: u in found <==> u in pending || u in links
      invariant forall u :: u in pending ==> u !in links
      decreases |pending|
    {
      var u :| u in pending;
      links := links + [u];
      pending := pending - {u};
    }
  }

  // ---------------------------------------------------------------------------------
  // crawl_requests

  /** What a search page offers: its anchors with an href, as (text, href) pairs, and the
      href of its first `rel="next"` anchor ("" when there is none or it has no href). */
  datatype SearchPage = SearchPage(anchors: seq<Link>, relNext: string)

  /** The link texts that mark a "next" anchor: `次へ|次ページ|＞|≫|>`. */
  const NEXT_MARKS: seq<string> := ["次へ", "次ページ", "＞", "≫", ">"]

  /** The index of the first anchor whose text holds a next mark. */
  function FirstNextAnchor(anchors: seq<Link>): (r: Option<nat>)
    ensures r.Some? ==> r.value < |anchors| && ContainsAny(anchors[r.value].text, NEXT_MARKS)
                        && forall m :: 0 <= m < r.value ==> !ContainsAny(anchors[m].text, NEXT_MARKS)
    ensures r.None? ==> forall m :: 0 <= m < |anchors| ==> !ContainsAny(anchors[m].text, NEXT_MARKS)
  {
    if anchors == [] then None
    else if ContainsAny(anchors[0].text, NEXT_MARKS) then Some(0)
    else
      match FirstNextAnchor(anchors[1..])
      case None => None
      case Some(k) => Some(k + 1)
  }

  /** The next search page: the `rel="next"` href joined to the current URL (`join` is
      `urljoin`), else the href of the first anchor whose text holds a next mark, else
      "" (no next page). */
  function NextLink(p: SearchPage, current: string, join: (string, string) -> string): (u: string)
    ensures p.relNext != "" ==> u == join(current, p.relNext)
    ensures p.relNext == "" && (forall m :: 0 <= m < |p.anchors| ==> !ContainsAny(p.anchors[m].text, NEXT_MARKS)) ==> u == ""
    ensures p.relNext == "" && u != "" ==>
              exists k :: 0 <= k < |p.anchors| && ContainsAny(p.anchors[k].text, NEXT_MARKS)
                          && u == join(current, p.anchors[k].href)
                          && forall m :: 0 <= m < k ==> !ContainsAny(p.anchors[m].text, NEXT_MARKS)
  {
    if p.relNext != "" then join(current, p.relNext)
    else
      match FirstNextAnchor(p.anchors)
      case None => ""
      case Some(k) => join(current, p.anchors[k].href)
  }

  /** The record kept for a store URL: what `parse_store_page` returns (`store`, None
      when the request raised), with URL and SSL blanked as
      `FORCE_EMPTY_URL_FOR_REQUESTS` demands. */
  function Forced(store: string -> Option<Record>): string -> Option<Record> {
    u => if store(u).Some? then Some(store(u).value.(url := "", ssl := false)) else None
  }

  /** What the crawl keeps true: at most maxRecords results, none with a URL or SSL,
      each the forced record of a fetched store URL; no store URL is fetched twice and
      each is in `visited`. */
  predicate Progress(results: seq<Record>, maxRecords: nat, fetched: seq<string>, source: seq<nat>,
                     visited: set<string>, store: string -> Option<Record>) {
    && |results| <= maxRecords
    && (forall i :: 0 <= i < |results| ==> results[i].url == "" && !results[i].ssl)
    && Sourced(results, fetched, source, Forced(store))
    && Distinct(fetched)
    && (forall k :: 0 <= k < |fetched| ==> fetched[k] in visited)
  }

  /** The loop over the store links of one search page. It opens, in order, each link
      not visited, until maxRecords results are held: the URLs `added` to the fetched
      ones are what `Opened` lists for the first `stop` links, where `stop` covers all
      the links unless the cap was reached. The results are the forced records of those
      whose request succeeded, and the visited set grows by exactly those URLs. */
  method VisitStores(links: seq<string>, maxRecords: nat, store: string -> Option<Record>,
                     results0: seq<Record>, visited0: set<string>,
                     ghost fetched0: seq<string>, ghost source0: seq<nat>)
    returns (results: seq<Record>, visited: set<string>, ghost fetched: seq<string>, ghost source: seq<nat>,
             ghost added: seq<string>, ghost stop: nat)
    requires Progress(results0, maxRecords, fetched0, source0, visited0, store)
    ensures Progress(results, maxRecords, fetched, source, visited, store)
    ensures fetched == fetched0 + added
    ensures stop <= |links| && (stop == |links| || |results| >= maxRecords)
    ensures added == Opened(links[..stop], AsIs(), Anything(), true, visited0)
    ensures results == KeepAll(results0, added, Forced(store), AnyRecord)
    ensures UnderCap(results0, added, Forced(store), AnyRecord, maxRecords)
    ensures visited == visited0 + SetOf(added)
  {
    results, visited, fetched, source, added := results0, visited0, fetched0, source0, [];
    WalkStart(links, AsIs(), Anything(), true, visited0, results0, Forced(store), AnyRecord, maxRecords);
    var j := 0;
    while j < |links|
      invariant Progress(results, maxRecords, fetched, source, visited, store)
      invariant fetched == fetched0 + added
      invariant Walked(links, j, AsIs(), Anything(), true, visited0, results0, Forced(store), AnyRecord, maxRecords,
                       results, visited, added)
    {
      if |results| >= maxRecords {
        break;
      }
      var results', visited', fetched', source', added' := VisitStore(links[j], maxRecords, store, results, visited,
                                                                      fetched, source, added, fetched0);
      WalkOn(links, j, AsIs(), Anything(), true, visited0, results0, Forced(store), AnyRecord, maxRecords,
             results, visited, added, results', visited', added');
      results, visited, fetched, source, added := results', visited', fetched', source', added';
      j := j + 1;
    }
    stop := j;
  }

  /** One store link, below the cap: opened when not visited, and the forced record of
      its page kept when the request succeeded. */
  method VisitStore(link: string, maxRecords: nat, store: string -> Option<Record>,
                    results0: seq<Record>, visited0: set<string>, ghost fetched0: seq<string>,
                    ghost source0: seq<nat>, ghost added0: seq<string>, ghost start: seq<string>)
    returns (results: seq<Record>, visited: set<string>, ghost fetched: seq<string>, ghost source: seq<nat>,
             ghost added: seq<string>)
    requires Progress(results0, maxRecords, fetched0, source0, visited0, store) && |results0| < maxRecords
    requires fetched0 == start + added0
    ensures Progress(results, maxRecords, fetched, source, visited, store)
    ensures StepOf(link, AsIs(), Anything(), true, Forced(store), AnyRecord, results0, visited0, added0,
                   results, visited, added)
    ensures fetched == start + added
  {
    results, visited, fetched, source, added := results0, visited0, fetched0, source0, added0;
    if link in visited {
      return;
    }
    visited := visited + {link};
    AppendKeepsDistinctUrls(fetched, link);
    SourcedAfterFetch(results, fetched, source, Forced(store), link);
    fetched := fetched + [link];
    added := added + [link];
    assert fetched == start + added;
    var parsed := store(link);
    if parsed.None? {
      return;
    }
    var rec := parsed.value.(url := "", ssl := false);
    SourcedAfterKeep(results, fetched, source, Forced(store), rec);
    results, source := results + [rec], source + [|fetched| - 1];
  }

  /** The crawl moves from search page `prev` to `next`: `prev` was fetched, and `next`
      is its next link, non-empty and different from it. */
  predicate Follows(search: string -> Option<SearchPage>, join: (string, string) -> string,
                    prev: string, next: string) {
    && search(prev).Some?
    && next == NextLink(search(prev).value, prev, join)
    && next != "" && next != prev
  }

  /** Every search page after the first is the next link of the one before it. */
  ghost predicate Chained(pages: seq<string>, search: string -> Option<SearchPage>, join: (string, string) -> string) {
    forall i, j :: 0 <= i && j == i + 1 && j < |pages| ==> Follows(search, join, pages[i], pages[j])
  }

  /** The crawl of the last search page ends: its request raised, or it has no next
      link, or the next link is the page itself. */
  predicate Ends(search: string -> Option<SearchPage>, join: (string, string) -> string, last: string) {
    search(last).None? || NextLink(search(last).value, last, join) in {"", last}
  }

  /** The store links of a search page, as `ExtractStoreLinks` lists them: each once,
      and exactly the joined store hrefs of its anchors. */
  ghost predicate StoreLinksOf(page: SearchPage, siteJoin: string -> string, run: seq<string>) {
    && Distinct(run)
    && forall u :: u in run <==> exists k :: 0 <= k < |page.anchors| && StoreHref(page.anchors[k].href)
                                            && u == siteJoin(page.anchors[k].href)
  }

  /** Run i lists the store links of search page i, and every search page was fetched. */
  ghost predicate RunsOf(pages: seq<string>, runs: seq<seq<string>>, search: string -> Option<SearchPage>,
                         siteJoin: string -> string)
    decreases |pages|
  {
    && |runs| == |pages|
    && (pages != [] ==>
          && RunsOf(pages[..|pages| - 1], runs[..|runs| - 1], search, siteJoin)
          && search(pages[|pages| - 1]).Some?
          && StoreLinksOf(search(pages[|pages| - 1]).value, siteJoin, runs[|runs| - 1]))
  }

  /** One more fetched search page and its run. */
  lemma RunsOfStep(pages: seq<string>, runs: seq<seq<string>>, search: string -> Option<SearchPage>,
                   siteJoin: string -> string, page: string, run: seq<string>)
    requires RunsOf(pages, runs, search, siteJoin)
    requires search(page).Some? && StoreLinksOf(search(page).value, siteJoin, run)
    ensures RunsOf(pages + [page], runs + [run], search, siteJoin)
  {
    assert (pages + [page])[..|pages|] == pages;
    assert (runs + [run])[..|runs|] == runs;
  }

  /** One search page, below the cap: its store links are visited and its next link is
      found. The links walked so far grow by this page's `run`. */
  method CrawlPage(current: string, page: SearchPage, maxRecords: nat, siteJoin: string -> string,
                   join: (string, string) -> string, store: string -> Option<Record>,
                   results0: seq<Record>, visited0: set<string>,
                   ghost fetched0: seq<string>, ghost source0: seq<nat>,
                   ghost all0: seq<string>, ghost examined0: nat)
    returns (results: seq<Record>, visited: set<string>, ghost fetched: seq<string>, ghost source: seq<nat>,
             next: string, ghost run: seq<string>, ghost all: seq<string>, ghost examined: nat)
    requires Progress(results0, maxRecords, fetched0, source0, visited0, store) && |results0| < maxRecords
    requires Crawled(all0, AsIs(), Anything(), true, Forced(store), AnyRecord, maxRecords,
                     results0, visited0, fetched0, examined0)
    ensures Progress(results, maxRecords, fetched, source, visited, store)
    ensures next == NextLink(page, current, join)
    ensures StoreLinksOf(page, siteJoin, run) && all == all0 + run
    ensures Crawled(all, AsIs(), Anything(), true, Forced(store), AnyRecord, maxRecords,
                    results, visited, fetched, examined)
  {
    var links := ExtractStoreLinks(page.anchors, siteJoin);
    ghost var added, stop;
    results, visited, fetched, source, added, stop := VisitStores(links, maxRecords, store, results0, visited0,
                                                                  fetched0, source0);
    run, all, examined := links, all0 + links, |all0| + stop;
    CrawlOn(all0, links, all, AsIs(), Anything(), true, Forced(store), AnyRecord, maxRecords,
            results0, visited0, fetched0, examined0, stop, added, results, visited, fetched, examined);
    next := NextLink(page, current, join);
  }

  /** `crawl_requests`. `search` gives a search page (None when the request raised),
      `siteJoin` is `urljoin` on the site root, `join` is `urljoin` on the current page
      and `store` the parsed store page of a URL (None when its request raised). The
      loop follows next links as long as the next link exists and differs from the
      current page; `fuel` bounds the number of search pages. The ghost `pages` lists
      the search pages requested, `runs` the store links of each one fetched, `fetched`
      the store pages requested; result i is the forced record of `fetched[source[i]]`.
      The store pages requested are those `Opened` lists for the first `examined` links
      of the runs, and the results those `KeepAll` keeps of them. */
  method CrawlRequests(startUrl: string, maxRecords: nat, fuel: nat,
                       search: string -> Option<SearchPage>, siteJoin: string -> string,
                       join: (string, string) -> string, store: string -> Option<Record>)
    returns (results: seq<Record>, ghost pages: seq<string>, ghost runs: seq<seq<string>>,
             ghost fetched: seq<string>, ghost source: seq<nat>, ghost examined: nat)
    ensures |results| <= maxRecords
    ensures forall i :: 0 <= i < |results| ==> results[i].url == "" && !results[i].ssl
    ensures Sourced(results, fetched, source, Forced(store))
    ensures Distinct(fetched)
    ensures |pages| <= fuel
    ensures |pages| > 0 ==> pages[0] == startUrl
    ensures Chained(pages, search, join)
    ensures startUrl != "" && |results| < maxRecords && |pages| < fuel ==>
              |pages| > 0 && Ends(search, join, pages[|pages| - 1])
    ensures || RunsOf(pages, runs, search, siteJoin)
            || (|pages| > 0 && RunsOf(pages[..|pages| - 1], runs, search, siteJoin)
                && search(pages[|pages| - 1]).None?)
    ensures Crawled(Flatten(runs), AsIs(), Anything(), true, Forced(store), AnyRecord, maxRecords,
                    results, SetOf(fetched), fetched, examined)
  {
    results, pages, runs, fetched, source, examined := [], [], [], [], [], 0;
    var visited: set<string> := {};
    var current := startUrl;
    var requested := 0;
    CrawlStart(AsIs(), Anything(), true, Forced(store), AnyRecord, maxRecords);
    while current != "" && |results| < maxRecords && requested < fuel
      invariant requested == |pages| <= fuel
      invariant Progress(results, maxRecords, fetched, source, visited, store)
      invariant |pages| > 0 ==> pages[0] == startUrl
      invariant |pages| == 0 ==> current == startUrl
      invariant |pages| > 0 && current != "" ==> Follows(search, join, pages[|pages| - 1], current)
      invariant |pages| > 0 && current == "" ==> Ends(search, join, pages[|pages| - 1])
      invariant Chained(pages, search, join)
      invariant RunsOf(pages, runs, search, siteJoin)
      invariant Crawled(Flatten(runs), AsIs(), Anything(), true, Forced(store), AnyRecord, maxRecords,
                        results, visited, fetched, examined)
      decreases fuel - requested
    {
      ghost var before := pages;
      pages := pages + [current];
      requested := requested + 1;
      assert Chained(pages, search, join) by {
        forall i, j | 0 <= i && j == i + 1 && j < |pages|
          ensures Follows(search, join, pages[i], pages[j])
        {
          if j < |before| {
            assert pages[i] == before[i] && pages[j] == before[j];
          }
        }
      }
      var page := search(current);
      if page.None? {
        assert pages[..|pages| - 1] == before;
        break;
      }
      var next;
      ghost var run, all, examined';
      results, visited, fetched, source, next, run, all, examined' :=
        CrawlPage(current, page.value, maxRecords, siteJoin, join, store,
                  results, visited, fetched, source, Flatten(runs), examined);
      RunsOfStep(before, runs, search, siteJoin, current, run);
      FlattenStep(runs, run);
      runs, examined := runs + [run], examined';
      if next != "" && next != current {
        current := next;
      } else {
        current := "";
      }
    }
  }
}
