/** Character classes and string operations used by every scraper script.
    Strings are sequences of Unicode scalar values, as Python `str` values are. */
module Text {

  /** Python's `\s` on a `str` pattern, and the characters that `str.strip()` and
      `re.sub(r'\s+', '', s)` remove: exactly the characters for which `str.isspace()`
      holds (U+3000, the ideographic space, among them). */
  predicate IsSpace(c: char) {
    || ('\t' <= c <= '\r')
    || ('\U{1C}' <= c <= '\U{1F}')
    || c == ' ' || c == '\U{85}' || c == '\U{A0}' || c == '\U{1680}'
    || ('\U{2000}' <= c <= '\U{200A}')
    || c == '\U{2028}' || c == '\U{2029}' || c == '\U{202F}' || c == '\U{205F}'
    || c == '\U{3000}'
  }

  /** `[0-9]` in a pattern: the ASCII digits only. */
  predicate IsAsciiDigit(c: char) { '0' <= c <= '9' }

  predicate IsAsciiLetter(c: char) { ('a' <= c <= 'z') || ('A' <= c <= 'Z') }

  /** Python's `\d` on a `str` pattern: the decimal digits (general category Nd) of
      Unicode 15.0. */
  predicate IsUnicodeDigit(c: char) {
    || ('0' <= c <= '9')
    || ('\U{0660}' <= c <= '\U{0669}') || ('\U{06F0}' <= c <= '\U{06F9}')
    || ('\U{07C0}' <= c <= '\U{07C9}') || ('\U{0966}' <= c <= '\U{096F}')
    || ('\U{09E6}' <= c <= '\U{09EF}') || ('\U{0A66}' <= c <= '\U{0A6F}')
    || ('\U{0AE6}' <= c <= '\U{0AEF}') || ('\U{0B66}' <= c <= '\U{0B6F}')
    || ('\U{0BE6}' <= c <= '\U{0BEF}') || ('\U{0C66}' <= c <= '\U{0C6F}')
    || ('\U{0CE6}' <= c <= '\U{0CEF}') || ('\U{0D66}' <= c <= '\U{0D6F}')
    || ('\U{0DE6}' <= c <= '\U{0DEF}') || ('\U{0E50}' <= c <= '\U{0E59}')
    || ('\U{0ED0}' <= c <= '\U{0ED9}') || ('\U{0F20}' <= c <= '\U{0F29}')
    || ('\U{1040}' <= c <= '\U{1049}') || ('\U{1090}' <= c <= '\U{1099}')
    || ('\U{17E0}' <= c <= '\U{17E9}') || ('\U{1810}' <= c <= '\U{1819}')
    || ('\U{1946}' <= c <= '\U{194F}') || ('\U{19D0}' <= c <= '\U{19D9}')
    || ('\U{1A80}' <= c <= '\U{1A89}') || ('\U{1A90}' <= c <= '\U{1A99}')
    || ('\U{1B50}' <= c <= '\U{1B59}') || ('\U{1BB0}' <= c <= '\U{1BB9}')
    || ('\U{1C40}' <= c <= '\U{1C49}') || ('\U{1C50}' <= c <= '\U{1C59}')
    || ('\U{A620}' <= c <= '\U{A629}') || ('\U{A8D0}' <= c <= '\U{A8D9}')
    || ('\U{A900}' <= c <= '\U{A909}') || ('\U{A9D0}' <= c <= '\U{A9D9}')
    || ('\U{A9F0}' <= c <= '\U{A9F9}') || ('\U{AA50}' <= c <= '\U{AA59}')
    || ('\U{ABF0}' <= c <= '\U{ABF9}') || ('\U{FF10}' <= c <= '\U{FF19}')
    || ('\U{104A0}' <= c <= '\U{104A9}') || ('\U{10D30}' <= c <= '\U{10D39}')
    || ('\U{11066}' <= c <= '\U{1106F}') || ('\U{110F0}' <= c <= '\U{110F9}')
    || ('\U{11136}' <= c <= '\U{1113F}') || ('\U{111D0}' <= c <= '\U{111D9}')
    || ('\U{112F0}' <= c <= '\U{112F9}') || ('\U{11450}' <= c <= '\U{11459}')
    || ('\U{114D0}' <= c <= '\U{114D9}') || ('\U{11650}' <= c <= '\U{11659}')
    || ('\U{116C0}' <= c <= '\U{116C9}') || ('\U{11730}' <= c <= '\U{11739}')
    || ('\U{118E0}' <= c <= '\U{118E9}') || ('\U{11950}' <= c <= '\U{11959}')
    || ('\U{11C50}' <= c <= '\U{11C59}') || ('\U{11D50}' <= c <= '\U{11D59}')
    || ('\U{11DA0}' <= c <= '\U{11DA9}') || ('\U{11F50}' <= c <= '\U{11F59}')
    || ('\U{16A60}' <= c <= '\U{16A69}') || ('\U{16AC0}' <= c <= '\U{16AC9}')
    || ('\U{16B50}' <= c <= '\U{16B59}') || ('\U{1D7CE}' <= c <= '\U{1D7FF}')
    || ('\U{1E140}' <= c <= '\U{1E149}') || ('\U{1E2F0}' <= c <= '\U{1E2F9}')
    || ('\U{1E4F0}' <= c <= '\U{1E4F9}') || ('\U{1E950}' <= c <= '\U{1E959}')
    || ('\U{1FBF0}' <= c <= '\U{1FBF9}')
  }

  /** The class `[ぁ-んァ-ヶー一-龠a-zA-Z]`: hiragana U+3041-U+3093, katakana
      U+30A1-U+30F6, the prolonged sound mark U+30FC, the CJK ideographs U+4E00-U+9FA0
      and the ASCII letters. */
  predicate IsKanaKanjiLetter(c: char) {
    || ('\U{3041}' <= c <= '\U{3093}')
    || ('\U{30A1}' <= c <= '\U{30F6}')
    || c == '\U{30FC}'
    || ('\U{4E00}' <= c <= '\U{9FA0}')
    || IsAsciiLetter(c)
  }

  predicate NoSpace(s: string) {
    forall i :: 0 <= i < |s| ==> !IsSpace(s[i])
  }

  /** `re.sub(r'\s+', '', s)`: every whitespace character deleted. */
  function RemoveSpace(s: string): (r: string)
    ensures NoSpace(r)
    ensures |r| <= |s|
  {
    if s == [] then []
    else if IsSpace(s[0]) then RemoveSpace(s[1..])
    else [s[0]] + RemoveSpace(s[1..])
  }

  lemma {:induction false} RemoveSpaceAppend(a: string, b: string)
    ensures RemoveSpace(a + b) == RemoveSpace(a) + RemoveSpace(b)
  {
    if a == [] {
      assert a + b == b;
    } else {
      assert (a + b)[0] == a[0];
      assert (a + b)[1..] == a[1..] + b;
      RemoveSpaceAppend(a[1..], b);
      if IsSpace(a[0]) {
        assert RemoveSpace(a + b) == RemoveSpace(a[1..] + b);
      } else {
        assert RemoveSpace(a + b) == [a[0]] + RemoveSpace(a[1..] + b);
      }
    }
  }

  /** Text that already has no whitespace is left as it is. */
  lemma {:induction false} RemoveSpaceOfNoSpace(s: string)
    requires NoSpace(s)
    ensures RemoveSpace(s) == s
  {
    if s != [] {
      RemoveSpaceOfNoSpace(s[1..]);
    }
  }

  /** A text made of whitespace only disappears. */
  lemma {:induction false} RemoveSpaceOfSpace(s: string)
    requires forall i :: 0 <= i < |s| ==> IsSpace(s[i])
    ensures RemoveSpace(s) == []
  {
    if s != [] {
      RemoveSpaceOfSpace(s[1..]);
    }
  }

  /** The index of the first non-whitespace character at or after i, or |s|. */
  function SkipSpace(s: string, i: nat): (k: nat)
    requires i <= |s|
    ensures i <= k <= |s|
    ensures forall j :: i <= j < k ==> IsSpace(s[j])
    ensures k < |s| ==> !IsSpace(s[k])
    decreases |s| - i
  {
    if i < |s| && IsSpace(s[i]) then SkipSpace(s, i + 1) else i
  }

  /** The index just past the last non-whitespace character of s[a..k], or a. */
  function TrimEnd(s: string, a: nat, k: nat): (b: nat)
    requires a <= k <= |s|
    ensures a <= b <= k
    ensures forall j :: b <= j < k ==> IsSpace(s[j])
    ensures b > a ==> !IsSpace(s[b - 1])
    decreases k
  {
    if k > a && IsSpace(s[k - 1]) then TrimEnd(s, a, k - 1) else k
  }

  /** `str.strip()`: the slice of s left once leading and trailing whitespace is cut. */
  function Strip(s: string): (r: string)
  {
    var a := SkipSpace(s, 0);
    s[a..TrimEnd(s, a, |s|)]
  }

  /** What strip keeps is framed by whitespace only, and it neither starts nor ends
      with whitespace. */
  lemma StripFrame(s: string)
    ensures var a := SkipSpace(s, 0);
            var b := TrimEnd(s, a, |s|);
            && Strip(s) == s[a..b]
            && (forall i :: 0 <= i < a ==> IsSpace(s[i]))
            && (forall i :: b <= i < |s| ==> IsSpace(s[i]))
            && (Strip(s) == [] || (!IsSpace(Strip(s)[0]) && !IsSpace(Strip(s)[|Strip(s)| - 1])))
  {
  }

  /** Stripping text that has no whitespace changes nothing. */
  lemma StripOfNoSpace(s: string)
    requires NoSpace(s)
    ensures Strip(s) == s
  {
    var a := SkipSpace(s, 0);
    if a < |s| {
      assert TrimEnd(s, a, |s|) == |s|;
    }
  }

  /** Leading whitespace contributes nothing once whitespace is removed. */
  lemma {:induction false} RemoveSpaceDropHead(s: string, a: nat)
    requires a <= |s|
    requires forall i :: 0 <= i < a ==> IsSpace(s[i])
    ensures RemoveSpace(s) == RemoveSpace(s[a..])
  {
    if a > 0 {
      assert IsSpace(s[0]);
      assert s[1..][a - 1..] == s[a..];
      RemoveSpaceDropHead(s[1..], a - 1);
    }
  }

  /** Trailing whitespace contributes nothing once whitespace is removed. */
  lemma {:induction false} RemoveSpaceDropTail(s: string, b: nat)
    requires b <= |s|
    requires forall i :: b <= i < |s| ==> IsSpace(s[i])
    ensures RemoveSpace(s) == RemoveSpace(s[..b])
  {
    if b == 0 {
      RemoveSpaceOfSpace(s);
    } else {
      assert s[..b][0] == s[0];
      assert s[..b][1..] == s[1..][..b - 1];
      RemoveSpaceDropTail(s[1..], b - 1);
    }
  }

  /** Text that neither starts nor ends with whitespace. */
  predicate Framed(s: string) {
    s == [] || (!IsSpace(s[0]) && !IsSpace(s[|s| - 1]))
  }

  /** Stripping framed text changes nothing, and what strip returns is framed. */
  lemma StripOfFramed(s: string)
    ensures Framed(s) ==> Strip(s) == s
    ensures Framed(Strip(s))
  {
    StripFrame(s);
    if Framed(s) && s != [] {
      assert SkipSpace(s, 0) == 0;
      assert TrimEnd(s, 0, |s|) == |s|;
      assert s[0..|s|] == s;
    }
  }

  /** Stripping removes whitespace only, so the non-whitespace content is unchanged. */
  lemma StripKeepsContent(s: string)
    ensures RemoveSpace(Strip(s)) == RemoveSpace(s)
  {
    var head, tail := StripPieces(s);
    RemoveSpaceAppend(head + Strip(s), tail);
    RemoveSpaceAppend(head, Strip(s));
    RemoveSpaceOfSpace(head);
    RemoveSpaceOfSpace(tail);
  }

  /** Strip cuts a whitespace head and a whitespace tail off and nothing else. */
  lemma StripPieces(s: string) returns (head: string, tail: string)
    ensures s == head + Strip(s) + tail
    ensures forall i :: 0 <= i < |head| ==> IsSpace(head[i])
    ensures forall i :: 0 <= i < |tail| ==> IsSpace(tail[i])
  {
    StripFrame(s);
    var a := SkipSpace(s, 0);
    var b := TrimEnd(s, a, |s|);
    head := s[..a];
    tail := s[b..];
    assert s == head + s[a..b] + tail;
  }


  /** `s.startswith(p)` */
  predicate StartsWith(s: string, p: string) {
    |p| <= |s| && s[..|p|] == p
  }

  /** `s.endswith(p)` */
  predicate EndsWith(s: string, p: string) {
    |p| <= |s| && s[|s| - |p|..] == p
  }

  predicate OccursAt(s: string, p: string, i: int) {
    0 <= i <= |s| - |p| && s[i..i + |p|] == p
  }

  /** `p in s` for two strings */
  predicate Contains(s: string, p: string) {
    exists i :: 0 <= i <= |s| - |p| && OccursAt(s, p, i)
  }

  /** `any(k in s for k in keys)` */
  predicate ContainsAny(s: string, keys: seq<string>) {
    exists k :: 0 <= k < |keys| && Contains(s, keys[k])
  }

  /** An occurrence inside a slice is an occurrence in the whole text. */
  lemma ContainsInSlice(s: string, a: int, b: int, p: string)
    requires 0 <= a <= b <= |s| && Contains(s[a..b], p)
    ensures Contains(s, p)
  {
    var t := s[a..b];
    var i :| 0 <= i <= |t| - |p| && OccursAt(t, p, i);
    assert t[i..i + |p|] == p;
    forall j | 0 <= j < |p| ensures s[a + i + j] == p[j] {
      assert t[i + j] == p[j];
    }
    assert s[a + i..a + i + |p|] == p;
    assert OccursAt(s, p, a + i);
  }

  /** The index of the first occurrence of c, if any. */
  function IndexOf(s: string, c: char): (r: Option<nat>)
    ensures r.Some? ==> r.value < |s| && s[r.value] == c && c !in s[..r.value]
    ensures r.None? ==> c !in s
  {
    if s == [] then None
    else if s[0] == c then Some(0)
    else match IndexOf(s[1..], c)
      case None => None
      case Some(i) => assert s[..i + 1] == [s[0]] + s[1..][..i]; Some(i + 1)
  }

  /** `s.split(c)[0]`: the text before the first c, or all of s. */
  function BeforeFirst(s: string, c: char): (r: string)
    ensures c !in r
    ensures StartsWith(s, r)
    ensures r == s || (|r| < |s| && s[|r|] == c)
  {
    match IndexOf(s, c)
    case None => s
    case Some(i) => s[..i]
  }

  /** `s.count(c)` for one character */
  function Count(s: string, c: char): (n: nat)
    ensures n <= |s|
  {
    if s == [] then 0 else (if s[0] == c then 1 else 0) + Count(s[1..], c)
  }

  /** A prefix never has more occurrences of c than the whole text. */
  lemma {:induction false} CountPrefix(s: string, k: nat, c: char)
    requires k <= |s|
    ensures Count(s[..k], c) <= Count(s, c)
  {
    if k > 0 {
      assert s[..k][1..] == s[1..][..k - 1];
      CountPrefix(s[1..], k - 1, c);
    }
  }

  /** Counting distributes over concatenation. */
  lemma {:induction false} CountAppend(a: string, b: string, c: char)
    ensures Count(a + b, c) == Count(a, c) + Count(b, c)
  {
    if a == [] {
      assert a + b == b;
    } else {
      assert (a + b)[1..] == a[1..] + b;
      CountAppend(a[1..], b, c);
    }
  }

  /** A character that does not occur is counted zero times. */
  lemma {:induction false} CountAbsent(s: string, c: char)
    requires c !in s
    ensures Count(s, c) == 0
  {
    if s != [] {
      assert c !in s[1..];
      CountAbsent(s[1..], c);
    }
  }

  /** Cutting at the first c of `head + [c] + tail` gives head when head has no c. */
  lemma BeforeFirstAt(head: string, c: char, tail: string)
    requires c !in head
    ensures BeforeFirst(head + [c] + tail, c) == head
  {
    var s := head + [c] + tail;
    var r := BeforeFirst(s, c);
    assert s[|head|] == c;
    assert r == s[..|r|];
    assert s[..|head|] == head;
  }

  /** `s.lower()` on ASCII text */
  function AsciiLower(s: string): (r: string)
    ensures |r| == |s|
    ensures forall i :: 0 <= i < |s| ==> r[i] == (if 'A' <= s[i] <= 'Z' then s[i] - 'A' + 'a' else s[i])
  {
    if s == [] then []
    else [if 'A' <= s[0] <= 'Z' then s[0] - 'A' + 'a' else s[0]] + AsciiLower(s[1..])
  }

  /** `[x for x in xs if keep(x)]` */
  function Filter(xs: seq<string>, keep: string -> bool): (r: seq<string>)
    ensures forall k :: 0 <= k < |r| ==> keep(r[k])
    ensures forall x :: x in r <==> x in xs && keep(x)
    ensures |r| <= |xs|
  {
    if xs == [] then []
    else
      var rest := Filter(xs[1..], keep);
      assert forall x :: x in xs <==> x == xs[0] || x in xs[1..];
      if keep(xs[0]) then [xs[0]] + rest else rest
  }

  /** Filtering one more element extends the result by it when it passes. */
  lemma {:induction false} FilterAppend(xs: seq<string>, x: string, keep: string -> bool)
    ensures Filter(xs + [x], keep) == Filter(xs, keep) + (if keep(x) then [x] else [])
    decreases |xs|
  {
    if xs == [] {
      assert xs + [x] == [x];
      assert [x][1..] == [];
    } else {
      assert (xs + [x])[1..] == xs[1..] + [x];
      FilterAppend(xs[1..], x, keep);
    }
  }

  /** The step of a loop that filters `xs` from left to right. */
  lemma FilterStep(xs: seq<string>, j: nat, keep: string -> bool)
    requires j < |xs|
    ensures Filter(xs[..j + 1], keep) == Filter(xs[..j], keep) + (if keep(xs[j]) then [xs[j]] else [])
  {
    assert xs[..j + 1] == xs[..j] + [xs[j]];
    FilterAppend(xs[..j], xs[j], keep);
  }

  predicate Distinct<T(==)>(xs: seq<T>) {
    forall i, j :: 0 <= i < j < |xs| ==> xs[i] != xs[j]
  }

  function DigitChar(d: nat): char
    requires d < 10
  {
    '0' + d as char
  }

  /** `str(n)` for a natural number: its decimal digits, most significant first. */
  function NatToDecimal(n: nat): (r: string)
    ensures r != [] && forall i :: 0 <= i < |r| ==> IsAsciiDigit(r[i])
    decreases n
  {
    if n < 10 then [DigitChar(n)] else NatToDecimal(n / 10) + [DigitChar(n % 10)]
  }

  function DigitValue(c: char): (d: nat)
    requires IsAsciiDigit(c)
    ensures d < 10
  {
    c as int - '0' as int
  }

  /** `int(s)` for a string of ASCII digits */
  function ParseDecimal(s: string): nat
    requires forall i :: 0 <= i < |s| ==> IsAsciiDigit(s[i])
  {
    if s == [] then 0 else 10 * ParseDecimal(s[..|s| - 1]) + DigitValue(s[|s| - 1])
  }

  /** Reading back the decimal text of a number gives the number. */
  lemma {:induction false} DecimalRoundTrip(n: nat)
    ensures ParseDecimal(NatToDecimal(n)) == n
    decreases n
  {
    if n >= 10 {
      var s := NatToDecimal(n);
      assert s[..|s| - 1] == NatToDecimal(n / 10);
      DecimalRoundTrip(n / 10);
    }
  }

  datatype Option<+T> = None | Some(value: T)
}
