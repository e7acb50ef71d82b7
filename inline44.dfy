/** 4.4.py: one pass over the Tokyo izakaya list pages that reads name, phone and address
    straight from each list item, splits the address with three anchored patterns and
    stops at TARGET_COUNT records or at the first page without items. */
module Inline44 {
  import opened Text
  import opened Address
  import opened Scraping

  const TARGET_COUNT: nat := 50
  const BASE_URL := "https://r.gnavi.co.jp/area/jp/tokyo/rs/?page="

  /** `BASE_URL.format(page)` */
  function ListUrl(page: nat): string {
    BASE_URL + NatToDecimal(page)
  }

  /** The page number can be read back from a list URL, so no page is requested twice. */
  lemma ListUrlInjective(p: nat, q: nat)
    ensures ListUrl(p) == ListUrl(q) ==> p == q
  {
    if ListUrl(p) == ListUrl(q) {
      assert ListUrl(p)[|BASE_URL|..] == NatToDecimal(p);
      assert ListUrl(q)[|BASE_URL|..] == NatToDecimal(q);
      DecimalRoundTrip(p);
      DecimalRoundTrip(q);
    }
  }

  // ---------------------------------------------------------------------------------
  // `^(東京都|北海道|(?:京都|大阪)府|.{2,3}県)(.*)`

  const NAMED_PREFECTURES := ["東京都", "北海道", "京都府", "大阪府"]

  /** `.{n}県` matches at the start of a. */
  predicate KenAfter(a: string, n: nat) {
    n < |a| && a[n] == '県' && NoNewline(a[..n])
  }

  predicate NamedAt(a: string) {
    exists q :: q in NAMED_PREFECTURES && StartsWith(a, q)
  }

  /** The first group of the prefecture pattern, "" when the pattern does not match. The
      alternatives are tried in order and `.{2,3}` tries three characters first. */
  function PrefectureMatch(a: string): (p: string)
    ensures p == "" <==> !NamedAt(a) && !KenAfter(a, 3) && !KenAfter(a, 2)
    ensures p != "" ==> StartsWith(a, p) && NoNewline(p)
    ensures p != "" ==> p in NAMED_PREFECTURES || ((|p| == 3 || |p| == 4) && p[|p| - 1] == '県')
    ensures NamedAt(a) ==> p in NAMED_PREFECTURES
    ensures p != "" && p !in NAMED_PREFECTURES && |p| == 3 ==> !KenAfter(a, 3)
  {
    if StartsWith(a, "東京都") then "東京都"
    else if StartsWith(a, "北海道") then "北海道"
    else if StartsWith(a, "京都府") then "京都府"
    else if StartsWith(a, "大阪府") then "大阪府"
    else
      assert !NamedAt(a);
      if KenAfter(a, 3) then a[..4]
      else if KenAfter(a, 2) then a[..3]
      else ""
  }

  // ---------------------------------------------------------------------------------
  // `^(.+?[市区町村])(.+)`

  /** The end of the city, 0 when the pattern fails: the lazy group takes the shortest
      prefix of at least two characters ending in 市区町村, and `(.+)` needs one more
      character after it. */
  function CityCut(rest: string): (e: nat)
    requires '\n' !in rest
    ensures e == 0 || (IsShortestEnd(rest, CITY_MARKS, e) && e < |rest|)
    ensures e == 0 <==> forall t :: 2 <= t < |rest| ==> !EndsIn(rest, CITY_MARKS, t)
  {
    var k := CityEnd(rest);
    if k < |rest| then k else 0
  }

  // ---------------------------------------------------------------------------------
  // `^(\d{1,3}[-丁目0-9]+)?(.*)`

  predicate InBlockClass(c: char) {
    c == '-' || c == '丁' || c == '目' || ('0' <= c <= '9')
  }

  /** s[..j] matches `\d{1,3}[-丁目0-9]+` with the digit run `\d{1,3}` taking k characters
      (`\d` is any Unicode decimal digit, the class only ASCII ones). */
  predicate BlockMatch(s: string, k: nat, j: nat) {
    1 <= k <= 3 && k < j <= |s|
    && (forall i :: 0 <= i < k ==> IsUnicodeDigit(s[i]))
    && (forall i :: k <= i < j ==> InBlockClass(s[i]))
  }

  /** The greedy `[-丁目0-9]+` from k on. */
  function RunEnd(s: string, k: nat): (j: nat)
    requires k <= |s|
    ensures k <= j <= |s|
    ensures forall i :: k <= i < j ==> InBlockClass(s[i])
    ensures j == |s| || !InBlockClass(s[j])
    decreases |s| - k
  {
    if k < |s| && InBlockClass(s[k]) then RunEnd(s, k + 1) else k
  }

  /** The greedy `\d{1,3}`: up to three leading digits. */
  function LeadingDigits(s: string): (k: nat)
    ensures k <= 3 && k <= |s|
    ensures forall i :: 0 <= i < k ==> IsUnicodeDigit(s[i])
    ensures k == |s| || k == 3 || !IsUnicodeDigit(s[k])
  {
    if |s| == 0 || !IsUnicodeDigit(s[0]) then 0
    else if |s| == 1 || !IsUnicodeDigit(s[1]) then 1
    else if |s| == 2 || !IsUnicodeDigit(s[2]) then 2
    else 3
  }

  /** Backtracking over the digit run: k digits, then k - 1, down to none (the optional
      group then matches nothing). */
  function TryDigits(s: string, k: nat): nat
    requires k <= |s|
    decreases k
  {
    if k == 0 then 0
    else if k < |s| && InBlockClass(s[k]) then RunEnd(s, k)
    else TryDigits(s, k - 1)
  }

  lemma {:induction false} TryDigitsSound(s: string, k: nat)
    requires k <= 3 && k <= |s|
    requires forall i :: 0 <= i < k ==> IsUnicodeDigit(s[i])
    ensures TryDigits(s, k) == 0 || BlockMatch(s, k, TryDigits(s, k))
            || (k > 1 && BlockMatch(s, k - 1, TryDigits(s, k)))
            || (k > 2 && BlockMatch(s, k - 2, TryDigits(s, k)))
    decreases k
  {
    if k > 0 && !(k < |s| && InBlockClass(s[k])) {
      TryDigitsSound(s, k - 1);
    }
  }

  lemma {:induction false} TryDigitsLongest(s: string, k: nat, k': nat, j: nat)
    requires k <= |s| && BlockMatch(s, k', j) && k' <= k
    ensures TryDigits(s, k) >= j
    decreases k
  {
    if !(k < |s| && InBlockClass(s[k])) {
      assert k != k';
      TryDigitsLongest(s, k - 1, k', j);
    } else if k < j {
      assert forall i :: k <= i < j ==> InBlockClass(s[i]);
    }
  }

  /** The length of the optional block group: the longest prefix of s that matches
      `\d{1,3}[-丁目0-9]+`, 0 when no prefix does. */
  function BlockEnd(s: string): (b: nat)
    ensures b <= |s|
    ensures b == 0 || BlockMatch(s, 1, b) || BlockMatch(s, 2, b) || BlockMatch(s, 3, b)
    ensures forall k: nat, j: nat :: BlockMatch(s, k, j) ==> j <= b
  {
    var d := LeadingDigits(s);
    TryDigitsSound(s, d);
    assert forall k: nat, j: nat :: BlockMatch(s, k, j) ==> j <= TryDigits(s, d) by {
      forall k: nat, j: nat | BlockMatch(s, k, j) ensures j <= TryDigits(s, d) {
        TryDigitsLongest(s, d, k, j);
      }
    }
    TryDigits(s, d)
  }

  // ---------------------------------------------------------------------------------
  // The split

  /** The second group of the prefecture pattern: `(.*)` stops at the first line break. */
  function RestAfter(address: string, pref: string): (rest: string)
    requires |pref| <= |address|
    ensures '\n' !in rest && StartsWith(address[|pref|..], rest)
  {
    BeforeFirst(address[|pref|..], '\n')
  }

  /** The two groups of the block pattern: the longest block prefix and the rest. */
  function BlockSplit(tail: string): (r: (string, string))
    ensures r.0 + r.1 == tail
    ensures r.0 == "" || BlockMatch(tail, 1, |r.0|) || BlockMatch(tail, 2, |r.0|) || BlockMatch(tail, 3, |r.0|)
    ensures forall k: nat, j: nat :: BlockMatch(tail, k, j) ==> j <= |r.0|
  {
    var b := BlockEnd(tail);
    assert tail[..b] + tail[b..] == tail;
    (tail[..b], tail[b..])
  }

  /** Lines 63-66: the city and what follows it, both "" when the city pattern fails. */
  function CitySplit(rest: string): (r: (string, string))
    requires '\n' !in rest
    ensures r.0 == "" <==> forall t :: 2 <= t < |rest| ==> !EndsIn(rest, CITY_MARKS, t)
    ensures r.0 == "" ==> r.1 == ""
    ensures r.0 != "" ==> IsShortestEnd(rest, CITY_MARKS, |r.0|) && r.1 != "" && r.0 + r.1 == rest
  {
    var e := CityCut(rest);
    if e == 0 then ("", "")
    else
      assert rest[..e] + rest[e..] == rest;
      (rest[..e], rest[e..])
  }

  function SplitRest(pref: string, rest: string): Parts
    requires '\n' !in rest
  {
    var (city, tail) := CitySplit(rest);
    var (block, building) := BlockSplit(tail);
    Parts(pref, city, block, building)
  }

  /** Lines 55-71: no address or no prefecture leaves all four parts empty; otherwise the
      prefecture is the matched name, the city the shortest 市区町村 prefix of the rest of
      the line, and the block the longest block prefix of what follows the city; the
      parts put together never run past the address. */
  function SplitAddress(address: string): (r: Parts)
    ensures address == "" || PrefectureMatch(address) == "" ==> r == EMPTY_PARTS
    ensures address != "" && PrefectureMatch(address) != "" ==> r.prefecture == PrefectureMatch(address)
    ensures r.city == "" ==> r.street == "" && r.building == ""
    ensures r.city != "" ==>
      StartsWith(address, r.prefecture) && IsShortestEnd(RestAfter(address, r.prefecture), CITY_MARKS, |r.city|)
    ensures r.street == "" || BlockMatch(r.street + r.building, 1, |r.street|)
            || BlockMatch(r.street + r.building, 2, |r.street|) || BlockMatch(r.street + r.building, 3, |r.street|)
    ensures StartsWith(address, Joined(r))
  {
    var pref := PrefectureMatch(address);
    if address == "" || pref == "" then EMPTY_PARTS
    else
      RestJoined(address, pref);
      SplitRest(pref, RestAfter(address, pref))
  }

  lemma RestParts(p: string, rest: string)
    requires '\n' !in rest
    ensures var r := SplitRest(p, rest);
      Joined(r) == if r.city == "" then p else p + rest
  {
    var c := CitySplit(rest);
    var b := BlockSplit(c.1);
    assert SplitRest(p, rest) == Parts(p, c.0, b.0, b.1);
    JoinedOf(p, c.0, b.0, b.1);
    if c.0 != "" {
      assert c.0 + c.1 == rest;
    }
  }

  lemma JoinedOf(p: string, city: string, block: string, building: string)
    ensures Joined(Parts(p, city, block, building)) == p + (city + (block + building))
  {
  }

  lemma PrefixOfLine(address: string, p: string, rest: string)
    requires StartsWith(address, p) && rest == RestAfter(address, p)
    ensures StartsWith(address, p + rest)
    ensures '\n' !in address ==> p + rest == address
  {
    var after := address[|p|..];
    assert address == p + after;
    assert address[..|p| + |rest|] == p + after[..|rest|];
    if '\n' !in address {
      assert '\n' !in after;
    }
  }

  /** The parts split off the text after a prefecture p put together: p and the whole
      line when a city is found, p alone otherwise. */
  lemma RestJoined(address: string, p: string)
    requires StartsWith(address, p)
    ensures var r := SplitRest(p, RestAfter(address, p));
      StartsWith(address, Joined(r))
      && ('\n' !in address && r.city != "" ==> Joined(r) == address)
  {
    var rest := RestAfter(address, p);
    RestParts(p, rest);
    PrefixOfLine(address, p, rest);
  }

  /** Whatever matches, the four parts put together are a prefix of the address. */
  lemma SplitIsPrefix(address: string)
    ensures StartsWith(address, Joined(SplitAddress(address)))
  {
    var p := PrefectureMatch(address);
    if address != "" && p != "" {
      RestJoined(address, p);
    }
  }

  /** For a single-line address on which all three patterns match, the four parts put
      together give back the address. */
  lemma SplitRoundTrip(address: string)
    requires '\n' !in address
    requires SplitAddress(address).city != ""
    ensures Joined(SplitAddress(address)) == address
  {
    RestJoined(address, PrefectureMatch(address));
  }

  // ---------------------------------------------------------------------------------
  // The collection loop

  /** One `div.rstlst-cassette__item`: the texts of `a.rstlst-name`, `span.tel` and
      `li.address`, None when the tag is missing. */
  datatype ShopItem = ShopItem(name: Option<string>, tel: Option<string>, address: Option<string>)

  function TagText(tag: Option<string>): string {
    if tag.Some? then Strip(tag.value) else ""
  }

  /** Lines 39-88: the record of one list item. */
  function ItemRecord(item: ShopItem): (r: Record)
    ensures r.email == "" && r.url == "" && !r.ssl
    ensures r.name == TagText(item.name) && r.tel == TagText(item.tel)
  {
    var parts := SplitAddress(TagText(item.address));
    Record(TagText(item.name), TagText(item.tel), "",
           parts.prefecture, parts.city, parts.street, parts.building, "", false)
  }

  /** The items of list pages 1 to n, in page order. */
  function Items(listing: string -> seq<ShopItem>, n: nat): seq<ShopItem> {
    if n == 0 then [] else Items(listing, n - 1) + listing(ListUrl(n))
  }

  /** Lines 35-88: the records of one page's items appended in order, stopping once
      TARGET_COUNT records are held. `build` makes the record of an item; the script
      builds it with ItemRecord. */
  method AppendItems(data0: seq<Record>, shops: seq<ShopItem>, build: ShopItem -> Record)
    returns (data: seq<Record>)
    requires |data0| <= TARGET_COUNT
    ensures |data| == if |data0| + |shops| <= TARGET_COUNT then |data0| + |shops| else TARGET_COUNT
    ensures forall k :: 0 <= k < |data0| ==> data[k] == data0[k]
    ensures forall k :: |data0| <= k < |data| ==> data[k] == build(shops[k - |data0|])
  {
    data := data0;
    var i := 0;
    while i < |shops|
      invariant 0 <= i <= |shops|
      invariant |data| == |data0| + i <= TARGET_COUNT
      invariant forall k :: 0 <= k < |data0| ==> data[k] == data0[k]
      invariant forall k :: |data0| <= k < |data| ==> data[k] == build(shops[k - |data0|])
    {
      if |data| >= TARGET_COUNT {
        break;
      }
      data := data + [build(shops[i])];
      i := i + 1;
    }
  }

  /** data holds the records of the first |data| items, in order. */
  predicate RecordsOf(data: seq<Record>, items: seq<ShopItem>, build: ShopItem -> Record) {
    |data| <= |items| && forall k :: 0 <= k < |data| ==> data[k] == build(items[k])
  }

  /** Every record built from a list item has email "", URL "" and SSL False. */
  lemma RecordsOfBlank(data: seq<Record>, items: seq<ShopItem>)
    requires RecordsOf(data, items, ItemRecord)
    ensures forall i :: 0 <= i < |data| ==> data[i].email == "" && data[i].url == "" && !data[i].ssl
  {
    forall i | 0 <= i < |data| ensures data[i].email == "" && data[i].url == "" && !data[i].ssl {
      assert data[i] == ItemRecord(items[i]);
    }
  }

  lemma RecordsOfAppend(data0: seq<Record>, data: seq<Record>, before: seq<ShopItem>, shops: seq<ShopItem>,
                        build: ShopItem -> Record)
    requires RecordsOf(data0, before, build) && |data0| == |before|
    requires |data0| <= |data| <= |data0| + |shops|
    requires forall k :: 0 <= k < |data0| ==> data[k] == data0[k]
    requires forall k :: |data0| <= k < |data| ==> data[k] == build(shops[k - |data0|])
    ensures RecordsOf(data, before + shops, build)
  {
    forall k | 0 <= k < |data| ensures data[k] == build((before + shops)[k]) {
    }
  }

  /** Lines 22-90 with the record builder as a parameter. `listing(url)` stands for the
      items the list page at url shows. The records are those of the items of the
      requested pages, in order, cut at TARGET_COUNT; the pages are requested in order
      from page 1 and the loop stops at the first page without items or once the target
      is reached. */
  method CollectWith(listing: string -> seq<ShopItem>, build: ShopItem -> Record)
    returns (data: seq<Record>, ghost requested: seq<string>)
    ensures |data| <= TARGET_COUNT
    ensures |requested| >= 1 && forall i :: 0 <= i < |requested| ==> requested[i] == ListUrl(i + 1)
    ensures forall i :: 0 <= i < |requested| - 1 ==> listing(requested[i]) != []
    ensures |data| < TARGET_COUNT ==> listing(requested[|requested| - 1]) == []
    ensures |Items(listing, |requested| - 1)| < TARGET_COUNT
    ensures |data| == TARGET_COUNT || |data| == |Items(listing, |requested|)|
    ensures RecordsOf(data, Items(listing, |requested|), build)
  {
    data := [];
    requested := [];
    var page := 1;
    while |data| < TARGET_COUNT
      invariant page == |requested| + 1
      invariant forall i :: 0 <= i < |requested| ==> requested[i] == ListUrl(i + 1)
      invariant forall i :: 0 <= i < |requested| ==> listing(requested[i]) != []
      invariant |data| <= TARGET_COUNT
      invariant |requested| > 0 ==> |Items(listing, |requested| - 1)| < TARGET_COUNT
      invariant |data| == TARGET_COUNT || |data| == |Items(listing, |requested|)|
      invariant RecordsOf(data, Items(listing, |requested|), build)
      decreases TARGET_COUNT - |data|
    {
      var url := ListUrl(page);
      ghost var before := Items(listing, |requested|);
      requested := requested + [url];
      var shops := listing(url);
      assert Items(listing, |requested|) == before + shops;
      if shops == [] {
        break;
      }
      var data0 := data;
      data := AppendItems(data, shops, build);
      RecordsOfAppend(data0, data, before, shops, build);
      page := page + 1;
    }
  }

  /** Lines 22-90: the loop with the records the script builds, which all have email "",
      URL "" and SSL False. */
  method Collect(listing: string -> seq<ShopItem>) returns (data: seq<Record>, ghost requested: seq<string>)
    ensures |data| <= TARGET_COUNT
    ensures forall i :: 0 <= i < |data| ==> data[i].email == "" && data[i].url == "" && !data[i].ssl
    ensures |requested| >= 1 && forall i :: 0 <= i < |requested| ==> requested[i] == ListUrl(i + 1)
    ensures forall i :: 0 <= i < |requested| - 1 ==> listing(requested[i]) != []
    ensures |data| < TARGET_COUNT ==> listing(requested[|requested| - 1]) == []
    ensures |data| == TARGET_COUNT || |data| == |Items(listing, |requested|)|
    ensures RecordsOf(data, Items(listing, |requested|), ItemRecord)
  {
    data, requested := CollectWith(listing, ItemRecord);
    RecordsOfBlank(data, Items(listing, |requested|));
  }
}
