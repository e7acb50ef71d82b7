/** The address-splitting machinery the scrapers share: the table of the 47 prefectures,
    the shortest-prefix rule for the municipality, and the building patterns that the
    scripts hand to `re.search`. Each regular expression is written out as a character
    class, a first-match scan or a shortest-prefix scan, following Python `re`. */
module Address {
  import opened Text

  /** The four address columns: 都道府県, 市区町村, 番地, 建物名. */
  datatype Parts = Parts(prefecture: string, city: string, street: string, building: string)

  function Joined(p: Parts): string {
    p.prefecture + p.city + p.street + p.building
  }

  predicate PartsNoSpace(p: Parts) {
    NoSpace(p.prefecture) && NoSpace(p.city) && NoSpace(p.street) && NoSpace(p.building)
  }

  const EMPTY_PARTS := Parts("", "", "", "")

  /** The alternatives of the prefecture pattern, in the order the pattern lists them. */
  const PREFECTURES: seq<string> := [
    "北海道", "青森県", "岩手県", "宮城県", "秋田県", "山形県", "福島県", "茨城県", "栃木県", "群馬県",
    "埼玉県", "千葉県", "東京都", "神奈川県", "新潟県", "富山県", "石川県", "福井県", "山梨県", "長野県",
    "岐阜県", "静岡県", "愛知県", "三重県", "滋賀県", "京都府", "大阪府", "兵庫県", "奈良県", "和歌山県",
    "鳥取県", "島根県", "岡山県", "広島県", "山口県", "徳島県", "香川県", "愛媛県", "高知県", "福岡県",
    "佐賀県", "長崎県", "熊本県", "大分県", "宮崎県", "鹿児島県", "沖縄県"
  ]

  /** `re.match('^(a|b|…)', s)` over literal alternatives: the index of the first
      alternative, in listed order, that s starts with. */
  function FirstPrefix(names: seq<string>, s: string, from: nat): (r: Option<nat>)
    requires from <= |names|
    ensures r.Some? ==> from <= r.value < |names| && StartsWith(s, names[r.value])
    ensures r.Some? ==> forall k :: from <= k < r.value ==> !StartsWith(s, names[k])
    ensures r.None? ==> forall k :: from <= k < |names| ==> !StartsWith(s, names[k])
    decreases |names| - from
  {
    if from == |names| then None
    else if StartsWith(s, names[from]) then Some(from)
    else FirstPrefix(names, s, from + 1)
  }

  /** The prefecture a whitespace-free address starts with, or "": the first listed
      name that is a prefix, and "" only when none is. */
  function PrefectureOf(s: string): (r: string)
    ensures StartsWith(s, r)
    ensures r == "" || (r in PREFECTURES && StartsWith(s, r))
    ensures (forall k :: 0 <= k < |PREFECTURES| ==> !StartsWith(s, PREFECTURES[k])) ==> r == ""
    ensures (exists k :: 0 <= k < |PREFECTURES| && StartsWith(s, PREFECTURES[k])) ==>
              exists k :: 0 <= k < |PREFECTURES| && r == PREFECTURES[k] && StartsWith(s, r)
                          && forall m :: 0 <= m < k ==> !StartsWith(s, PREFECTURES[m])
  {
    match FirstPrefix(PREFECTURES, s, 0)
    case None => ""
    case Some(k) => PREFECTURES[k]
  }

  predicate NoNewline(s: string) {
    forall i :: 0 <= i < |s| ==> s[i] != '\n'
  }

  lemma NoSpaceNoNewline(s: string)
    requires NoSpace(s)
    ensures NoNewline(s)
  {
    forall i | 0 <= i < |s| ensures s[i] != '\n' {
      assert !IsSpace(s[i]);
    }
  }

  /** j is the end of a match of `.+?[cls]` at the start of s: at least two characters,
      none of the leading ones a newline (`.` stops there), the last one in cls. */
  predicate EndsIn(s: string, cls: set<char>, j: int) {
    2 <= j <= |s| && s[j - 1] in cls && NoNewline(s[..j - 1])
  }

  /** The lazy `+?` takes the first such end. */
  predicate IsShortestEnd(s: string, cls: set<char>, k: int) {
    EndsIn(s, cls, k) && forall j :: 2 <= j < k ==> !EndsIn(s, cls, j)
  }

  function ScanEnd(s: string, cls: set<char>, j: nat): (k: nat)
    requires 2 <= j <= |s| + 1
    requires NoNewline(s[..j - 2])
    requires forall t :: 2 <= t < j ==> !EndsIn(s, cls, t)
    ensures k == 0 || IsShortestEnd(s, cls, k)
    ensures k == 0 ==> forall t :: 2 <= t <= |s| ==> !EndsIn(s, cls, t)
    decreases |s| + 1 - j
  {
    if j > |s| then 0
    else if s[j - 2] == '\n' then
      assert forall t | j <= t <= |s| :: !EndsIn(s, cls, t) by {
        forall t | j <= t <= |s| ensures !EndsIn(s, cls, t) {
          assert s[..t - 1][j - 2] == '\n';
        }
      }
      0
    else
      assert s[..j - 1] == s[..j - 2] + [s[j - 2]];
      if s[j - 1] in cls then j else ScanEnd(s, cls, j + 1)
  }

  /** `re.match('^(.+?[cls])', s)`: the length of the match, or 0 when there is none. */
  function ShortestPrefixEnd(s: string, cls: set<char>): (k: nat)
    ensures k == 0 || IsShortestEnd(s, cls, k)
    ensures k == 0 ==> forall t :: 2 <= t <= |s| ==> !EndsIn(s, cls, t)
  {
    if |s| < 2 then 0 else ScanEnd(s, cls, 2)
  }

  const CITY_MARKS: set<char> := {'市', '区', '町', '村'}

  /** The end of the 市区町村 match at the start of s, 0 when there is none. */
  function CityEnd(s: string): (k: nat)
    ensures k == 0 || IsShortestEnd(s, CITY_MARKS, k)
    ensures k == 0 ==> forall t :: 2 <= t <= |s| ==> !EndsIn(s, CITY_MARKS, t)
  {
    ShortestPrefixEnd(s, CITY_MARKS)
  }

  /** k ends a match of the second alternative `.+?郡.+?[町村]` of the city pattern. */
  predicate GunTownEnd(s: string, k: int) {
    3 <= k <= |s| && NoNewline(s[..k - 1]) && s[k - 1] in {'町', '村'}
    && exists g :: 1 <= g < k - 2 && s[g] == '郡'
  }

  /** The second alternative of `^(.+?[市区町村]|.+?郡.+?[町村])` never decides the city:
      wherever it could match, the first alternative, which is tried first, matches too and
      ends no later. */
  lemma GunAlternativeNeverDecides(s: string, k: int)
    requires GunTownEnd(s, k)
    ensures CityEnd(s) != 0 && CityEnd(s) <= k
  {
    assert EndsIn(s, CITY_MARKS, k);
  }

  // ---------------------------------------------------------------------------------
  // Building patterns

  /** The character classes the building patterns use. */
  datatype CharClass =
    | Letters           // [ぁ-んァ-ヶー一-龠a-zA-Z]
    | LettersDigitsSpace // [ぁ-んァ-ヶー一-龠a-zA-Z0-9\s]
    | Digits            // [0-9]

  predicate InClass(cls: CharClass, c: char) {
    match cls
    case Letters => IsKanaKanjiLetter(c)
    case LettersDigitsSpace => IsKanaKanjiLetter(c) || IsAsciiDigit(c) || IsSpace(c)
    case Digits => IsAsciiDigit(c)
  }

  predicate AllIn(s: string, i: int, j: int, cls: CharClass)
    requires 0 <= i <= j <= |s|
  {
    forall t :: i <= t < j ==> InClass(cls, s[t])
  }

  /** `[階F号室]` */
  const FLOOR_MARKS: set<char> := {'階', 'F', '号', '室'}

  /** Some keyword of the list occurs at j. */
  predicate KeywordAt(s: string, j: int, keywords: seq<string>) {
    exists n :: 0 <= n < |keywords| && OccursAt(s, keywords[n], j)
  }

  /** A building pattern of the form `(…)$` searched with `re.search`.
      KeywordRun:    `([cls]+(?:kw1|kw2|…)<tail>)$`
      RunDigitsMark: `([ぁ-んァ-ヶー一-龠a-zA-Z0-9\s]{2,}[0-9]+[階F号室]+.*?)$`
      DigitsMark:    `([0-9]+[階F号室]+.*?)$`
      Every tail the scripts use (`.*?` or `[^0-9]*[0-9]*[階F号]?.*?`) runs to the end of a
      text without line breaks, so on such text the group always ends at the end. */
  datatype Pattern =
    | KeywordRun(cls: CharClass, keywords: seq<string>)
    | RunDigitsMark
    | DigitsMark

  /** The pattern matches a whitespace-free text starting at i. */
  predicate MatchesAt(p: Pattern, s: string, i: int) {
    0 <= i <= |s| &&
    match p
    case KeywordRun(cls, keywords) =>
      exists j :: i < j <= |s| && AllIn(s, i, j, cls) && KeywordAt(s, j, keywords)
    case RunDigitsMark =>
      exists j, k :: i + 2 <= j < k < |s| && AllIn(s, i, j, LettersDigitsSpace)
                     && AllIn(s, j, k, Digits) && s[k] in FLOOR_MARKS
    case DigitsMark =>
      exists k :: i < k < |s| && AllIn(s, i, k, Digits) && s[k] in FLOOR_MARKS
  }

  /** The end of the longest run of cls characters starting at i. */
  function RunEnd(s: string, i: nat, cls: CharClass): (e: nat)
    requires i <= |s|
    ensures i <= e <= |s| && AllIn(s, i, e, cls)
    ensures e < |s| ==> !InClass(cls, s[e])
    decreases |s| - i
  {
    if i < |s| && InClass(cls, s[i]) then RunEnd(s, i + 1, cls) else i
  }

  /** A run of cls characters from i reaches j exactly when j is within the longest run. */
  lemma RunWithin(s: string, i: nat, j: nat, cls: CharClass)
    requires i <= j <= |s| && AllIn(s, i, j, cls)
    ensures j <= RunEnd(s, i, cls)
  {
  }

  /** Which keyword, if any, occurs at j: tried in listed order. */
  function KeywordIndex(s: string, j: int, keywords: seq<string>, from: nat): (r: Option<nat>)
    requires from <= |keywords|
    ensures r.Some? ==> from <= r.value < |keywords| && OccursAt(s, keywords[r.value], j)
    ensures r.None? ==> forall n :: from <= n < |keywords| ==> !OccursAt(s, keywords[n], j)
    decreases |keywords| - from
  {
    if from == |keywords| then None
    else if OccursAt(s, keywords[from], j) then Some(from)
    else KeywordIndex(s, j, keywords, from + 1)
  }

  function HasKeywordAt(s: string, j: int, keywords: seq<string>): (b: bool)
    ensures b <==> KeywordAt(s, j, keywords)
  {
    match KeywordIndex(s, j, keywords, 0)
    case None => false
    case Some(n) => assert OccursAt(s, keywords[n], j); true
  }

  /** Whether a keyword occurs at some index in [lo, hi). */
  function KeywordWithin(s: string, lo: nat, hi: nat, keywords: seq<string>): (b: bool)
    ensures b <==> exists j :: lo <= j < hi && KeywordAt(s, j, keywords)
    decreases hi - lo
  {
    if lo >= hi then false
    else HasKeywordAt(s, lo, keywords) || KeywordWithin(s, lo + 1, hi, keywords)
  }

  /** `[0-9][階F号室]` ends at k. */
  predicate MarkAfterDigit(s: string, k: int) {
    1 <= k < |s| && s[k] in FLOOR_MARKS && IsAsciiDigit(s[k - 1])
  }

  /** Whether some index in [lo, hi) holds a floor mark right after an ASCII digit. */
  function MarkWithin(s: string, lo: nat, hi: nat): (b: bool)
    ensures b <==> exists k :: lo <= k < hi && MarkAfterDigit(s, k)
    decreases hi - lo
  {
    if lo >= hi then false else MarkAfterDigit(s, lo) || MarkWithin(s, lo + 1, hi)
  }

  /** Whether p matches at i, decided by scanning the longest class run from i. */
  function Matches(p: Pattern, s: string, i: nat): (b: bool)
    requires i <= |s|
    ensures b <==> MatchesAt(p, s, i)
  {
    match p
    case KeywordRun(cls, keywords) =>
      KeywordRunDecided(s, i, cls, keywords);
      KeywordWithin(s, i + 1, RunEnd(s, i, cls) + 1, keywords)
    case RunDigitsMark =>
      RunDigitsMarkDecided(s, i);
      MarkWithin(s, i + 3, RunEnd(s, i, LettersDigitsSpace) + 1)
    case DigitsMark =>
      DigitsMarkDecided(s, i);
      var e := RunEnd(s, i, Digits);
      i < e < |s| && s[e] in FLOOR_MARKS
  }

  /** A keyword run matches at i exactly when a keyword starts inside, or right after,
      the longest class run from i. */
  lemma KeywordRunDecided(s: string, i: nat, cls: CharClass, keywords: seq<string>)
    requires i <= |s|
    ensures KeywordWithin(s, i + 1, RunEnd(s, i, cls) + 1, keywords)
            <==> MatchesAt(KeywordRun(cls, keywords), s, i)
  {
    var e := RunEnd(s, i, cls);
    if KeywordWithin(s, i + 1, e + 1, keywords) {
      var j :| i + 1 <= j < e + 1 && KeywordAt(s, j, keywords);
      assert AllIn(s, i, j, cls);
    }
    if MatchesAt(KeywordRun(cls, keywords), s, i) {
      var j :| i < j <= |s| && AllIn(s, i, j, cls) && KeywordAt(s, j, keywords);
      RunWithin(s, i, j, cls);
    }
  }

  /** `[…]{2,}[0-9]+[階F号室]` matches at i exactly when a floor mark follows a digit
      somewhere inside the longest class run from i, at least three characters in. */
  lemma RunDigitsMarkDecided(s: string, i: nat)
    requires i <= |s|
    ensures MarkWithin(s, i + 3, RunEnd(s, i, LettersDigitsSpace) + 1) <==> MatchesAt(RunDigitsMark, s, i)
  {
    var e := RunEnd(s, i, LettersDigitsSpace);
    if MarkWithin(s, i + 3, e + 1) {
      var k :| i + 3 <= k < e + 1 && MarkAfterDigit(s, k);
      assert AllIn(s, i, k - 1, LettersDigitsSpace);
      assert AllIn(s, k - 1, k, Digits);
    }
    if MatchesAt(RunDigitsMark, s, i) {
      var j, k :| i + 2 <= j < k < |s| && AllIn(s, i, j, LettersDigitsSpace)
                  && AllIn(s, j, k, Digits) && s[k] in FLOOR_MARKS;
      assert AllIn(s, i, k, LettersDigitsSpace);
      RunWithin(s, i, k, LettersDigitsSpace);
      assert MarkAfterDigit(s, k);
    }
  }

  /** `[0-9]+[階F号室]` matches at i exactly when the digit run from i is followed by a
      floor mark (no floor mark is a digit, so the run cannot stop earlier). */
  lemma DigitsMarkDecided(s: string, i: nat)
    requires i <= |s|
    ensures (var e := RunEnd(s, i, Digits); i < e < |s| && s[e] in FLOOR_MARKS)
            <==> MatchesAt(DigitsMark, s, i)
  {
    if MatchesAt(DigitsMark, s, i) {
      var k :| i < k < |s| && AllIn(s, i, k, Digits) && s[k] in FLOOR_MARKS;
      RunWithin(s, i, k, Digits);
    }
  }

  /** t is where `re.search(p, s)` reports its match: p matches there and nowhere before. */
  predicate IsLeftmost(p: Pattern, s: string, t: int) {
    0 <= t < |s| && MatchesAt(p, s, t) && forall u :: 0 <= u < t ==> !MatchesAt(p, s, u)
  }

  predicate NoMatch(p: Pattern, s: string) {
    forall u :: 0 <= u <= |s| ==> !MatchesAt(p, s, u)
  }

  /** `re.search(p, s)` from position i on: the first start at which p matches. */
  function SearchFrom(p: Pattern, s: string, i: nat): (r: Option<nat>)
    requires i <= |s|
    ensures r.Some? ==> i <= r.value < |s| && MatchesAt(p, s, r.value)
    ensures r.Some? ==> forall u :: i <= u < r.value ==> !MatchesAt(p, s, u)
    ensures r.None? ==> forall u :: i <= u <= |s| ==> !MatchesAt(p, s, u)
    decreases |s| - i
  {
    if Matches(p, s, i) then
      (if i == |s| then assert false; None else Some(i))
    else if i == |s| then None
    else SearchFrom(p, s, i + 1)
  }

  function Search(p: Pattern, s: string): (r: Option<nat>)
    ensures r.Some? ==> IsLeftmost(p, s, r.value)
    ensures r.None? ==> NoMatch(p, s)
  {
    SearchFrom(p, s, 0)
  }

  /** Which pattern decided and where its match starts. */
  datatype Hit = Hit(rule: nat, start: nat)

  /** `for pattern in patterns: m = re.search(pattern, s); if m: … break`. */
  function FindBuilding(rules: seq<Pattern>, s: string, from: nat): (r: Option<Hit>)
    requires from <= |rules|
    ensures r.Some? ==> from <= r.value.rule < |rules| && r.value.start < |s|
    decreases |rules| - from
  {
    if from == |rules| then None
    else
      var t := Search(rules[from], s);
      if t.Some? then Some(Hit(from, t.value)) else FindBuilding(rules, s, from + 1)
  }

  /** The pattern that decides is the first one, in order, that matches anywhere, and
      the hit is its leftmost match; with no hit no pattern matches. */
  lemma {:induction false} FindBuildingSound(rules: seq<Pattern>, s: string, from: nat)
    requires from <= |rules|
    ensures var r := FindBuilding(rules, s, from);
            && (r.Some? ==> IsLeftmost(rules[r.value.rule], s, r.value.start)
                            && forall n :: from <= n < r.value.rule ==> NoMatch(rules[n], s))
            && (r.None? ==> forall n :: from <= n < |rules| ==> NoMatch(rules[n], s))
    decreases |rules| - from
  {
    if from < |rules| && Search(rules[from], s).None? {
      FindBuildingSound(rules, s, from + 1);
    }
  }

  /** The split every four-column variant performs once whitespace is gone: the listed
      prefecture, then the shortest 市区町村 prefix, then the building patterns in order;
      the street is what lies before the building. */
  function SplitClean(rules: seq<Pattern>, a: string): (r: Parts)
    requires NoSpace(a)
    ensures Joined(r) == a
    ensures PartsNoSpace(r)
    ensures r.prefecture == PrefectureOf(a)
    ensures r.city == a[|r.prefecture|..][..CityEnd(a[|r.prefecture|..])]
    ensures r.street + r.building == a[|r.prefecture| + |r.city|..]
    ensures (r.street, r.building) == SplitTail(rules, r.street + r.building)
  {
    var pref := PrefectureOf(a);
    var rest := a[|pref|..];
    var city := rest[..CityEnd(rest)];
    var tail := rest[|city|..];
    var (street, building) := SplitTail(rules, tail);
    SliceFacts(a, pref, rest, city, tail, |street|);
    Parts(pref, city, street, building)
  }

  /** The building search over the text after the city: the first pattern, in order,
      that matches anywhere decides, and the building runs from its leftmost match to the
      end; with no match the whole text is the street. */
  function SplitTail(rules: seq<Pattern>, tail: string): (r: (string, string))
    ensures r.0 + r.1 == tail
    ensures r.1 == "" <==> FindBuilding(rules, tail, 0).None?
    ensures FindBuilding(rules, tail, 0).Some? ==> FindBuilding(rules, tail, 0).value.start == |r.0|
  {
    match FindBuilding(rules, tail, 0)
    case None => (tail, "")
    case Some(h) => assert tail[..h.start] + tail[h.start..] == tail; (tail[..h.start], tail[h.start..])
  }

  lemma SliceFacts(a: string, pref: string, rest: string, city: string, tail: string, cut: nat)
    requires NoSpace(a) && StartsWith(a, pref) && rest == a[|pref|..]
    requires StartsWith(rest, city) && tail == rest[|city|..] && cut <= |tail|
    ensures pref + city + tail[..cut] + tail[cut..] == a
    ensures NoSpace(pref) && NoSpace(city) && NoSpace(tail[..cut]) && NoSpace(tail[cut..])
    ensures tail == a[|pref| + |city|..]
  {
    assert tail[..cut] + tail[cut..] == tail;
    assert city + tail == rest;
    assert pref + rest == a;
    assert tail == a[|pref| + |city|..];
  }

  /** `split_address` in the four-column scripts: empty input gives four empty columns;
      otherwise every whitespace character is deleted and the rest split. The columns
      concatenate back to the address without its whitespace, and none holds whitespace. */
  function Split(rules: seq<Pattern>, full: string): (r: Parts)
    ensures full == "" ==> r == EMPTY_PARTS
    ensures Joined(r) == RemoveSpace(full)
    ensures PartsNoSpace(r)
  {
    if full == "" then EMPTY_PARTS else SplitClean(rules, RemoveSpace(full))
  }

  /** The prefecture column is "" or a listed prefecture, and a prefix of the address
      without its whitespace: the first listed one when there is one, "" when there is
      none. */
  lemma SplitPrefecture(rules: seq<Pattern>, full: string)
    ensures var r := Split(rules, full);
            var a := RemoveSpace(full);
            && (r.prefecture == "" || r.prefecture in PREFECTURES)
            && StartsWith(a, r.prefecture)
            && ((forall k :: 0 <= k < |PREFECTURES| ==> !StartsWith(a, PREFECTURES[k])) ==> r.prefecture == "")
            && ((exists k :: 0 <= k < |PREFECTURES| && StartsWith(a, PREFECTURES[k])) ==>
                  exists k :: 0 <= k < |PREFECTURES| && r.prefecture == PREFECTURES[k]
                              && forall m :: 0 <= m < k ==> !StartsWith(a, PREFECTURES[m]))
  {
    var a := RemoveSpace(full);
    if full == "" {
      var first := FirstPrefix(PREFECTURES, a, 0);
      if first.Some? {
        assert PREFECTURES[first.value] == "";
      }
    } else {
      assert Split(rules, full).prefecture == PrefectureOf(a);
    }
  }

  /** The city column is the shortest prefix of at least two characters of what follows
      the prefecture whose last character is 市, 区, 町 or 村; it is "" only when there
      is no such prefix. */
  lemma SplitCity(rules: seq<Pattern>, full: string)
    ensures var r := Split(rules, full);
            var rest := RemoveSpace(full)[|r.prefecture|..];
            && StartsWith(rest, r.city)
            && (r.city == "" || IsShortestEnd(rest, CITY_MARKS, |r.city|))
            && (r.city == "" ==> forall t :: 2 <= t <= |rest| ==> !EndsIn(rest, CITY_MARKS, t))
  {
    var r := Split(rules, full);
    if full != "" {
      var a := RemoveSpace(full);
      var rest := a[|r.prefecture|..];
      assert r.city == rest[..CityEnd(rest)];
    }
  }

  /** The building patterns are tried in order. A non-empty building comes from the first
      pattern that matches anywhere in the text after the city, starts at that pattern's
      leftmost match and runs to the end; the street is exactly the text before it. An
      empty building means no pattern matches anywhere in the street. */
  lemma SplitBuilding(rules: seq<Pattern>, full: string)
    ensures var r := Split(rules, full);
            var tail := r.street + r.building;
            && (r.building != "" ==>
                  exists n :: 0 <= n < |rules| && IsLeftmost(rules[n], tail, |r.street|)
                              && forall m :: 0 <= m < n ==> NoMatch(rules[m], tail))
            && (r.building == "" ==> forall n :: 0 <= n < |rules| ==> NoMatch(rules[n], r.street))
  {
    var r := Split(rules, full);
    if full == "" {
      forall n | 0 <= n < |rules| ensures NoMatch(rules[n], r.street) {
        BlankNoMatch(rules[n], r.street);
      }
    } else {
      TailBuilding(rules, r.street + r.building);
    }
  }

  /** The building cut of SplitTail, stated on the text after the city alone. */
  lemma TailBuilding(rules: seq<Pattern>, tail: string)
    ensures var (street, building) := SplitTail(rules, tail);
            && (building != "" ==>
                  exists n :: 0 <= n < |rules| && IsLeftmost(rules[n], tail, |street|)
                              && forall m :: 0 <= m < n ==> NoMatch(rules[m], tail))
            && (building == "" ==> street == tail && forall n :: 0 <= n < |rules| ==> NoMatch(rules[n], street))
  {
    FindBuildingSound(rules, tail, 0);
    match FindBuilding(rules, tail, 0)
    case None =>
    case Some(h) =>
      assert IsLeftmost(rules[h.rule], tail, h.start);
  }

  /** With the single keyword pattern, a non-empty building holds one of the keywords. */
  lemma SplitKeywordBuilding(cls: CharClass, keywords: seq<string>, full: string)
    ensures var r := Split([KeywordRun(cls, keywords)], full);
            var tail := r.street + r.building;
            && (r.building != "" ==>
                  ContainsAny(r.building, keywords) && IsLeftmost(KeywordRun(cls, keywords), tail, |r.street|))
            && (r.building == "" ==> NoMatch(KeywordRun(cls, keywords), r.street))
  {
    var r := Split([KeywordRun(cls, keywords)], full);
    if full == "" {
      BlankNoMatch(KeywordRun(cls, keywords), r.street);
    } else {
      KeywordTail(cls, keywords, r.street + r.building);
    }
  }

  lemma KeywordTail(cls: CharClass, keywords: seq<string>, tail: string)
    ensures var (street, building) := SplitTail([KeywordRun(cls, keywords)], tail);
            && (building != "" ==>
                  ContainsAny(building, keywords) && IsLeftmost(KeywordRun(cls, keywords), tail, |street|))
            && (building == "" ==> NoMatch(KeywordRun(cls, keywords), street))
  {
    var rules := [KeywordRun(cls, keywords)];
    var (street, building) := SplitTail(rules, tail);
    TailBuilding(rules, tail);
    if building != "" {
      var t := |street|;
      assert IsLeftmost(rules[0], tail, t);
      var j :| t < j <= |tail| && AllIn(tail, t, j, cls) && KeywordAt(tail, j, keywords);
      var n :| 0 <= n < |keywords| && OccursAt(tail, keywords[n], j);
      assert building == tail[t..];
      assert building[j - t..j - t + |keywords[n]|] == tail[j..j + |keywords[n]|];
      assert OccursAt(building, keywords[n], j - t);
    } else {
      assert rules[0] == KeywordRun(cls, keywords);
    }
  }

  /** No pattern matches the empty text. */
  lemma BlankNoMatch(p: Pattern, s: string)
    requires s == ""
    ensures NoMatch(p, s)
  {
  }
}
