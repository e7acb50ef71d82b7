/** fix_ssl.py and fix_ssl_v2.py: rewrite the SSL column of a saved table from its URL
    column. The table is read from and written back to a CSV file; here it is a sequence
    of rows. */
module FixSsl {
  import opened Text
  import opened Scraping
  import Exercise12

  /** A cell as pandas reads it from the CSV: an empty cell is NaN, a boolean column
      holds True/False, everything else is text. */
  datatype Value = Missing | Str(s: string) | Flag(b: bool)

  /** Python's `str(x)` of a cell. */
  function StrOf(x: Value): (t: string)
    ensures x.Str? ==> t == x.s
    ensures x.Missing? ==> t == "nan"
  {
    match x
    case Missing => "nan"
    case Str(s) => s
    case Flag(b) => if b then "True" else "False"
  }

  /** One row: the URL column, the SSL column and the other columns in order. */
  datatype Row = Row(url: Value, ssl: Value, others: seq<Value>)

  const HTTPS := "https://"

  /** fix_ssl.py line 6: `True if str(x).startswith('https://') else False`. */
  function SslV1(x: Value): (ssl: bool)
    ensures ssl <==> x.Str? && StartsWith(x.s, HTTPS)
  {
    if StartsWith(StrOf(x), HTTPS) then true else false
  }

  /** fix_ssl_v2.py line 7: `str(x).startswith('https://') if pd.notna(x) else False`. */
  function SslV2(x: Value): (ssl: bool)
    ensures ssl <==> x.Str? && StartsWith(x.s, HTTPS)
    ensures x.Missing? ==> !ssl
  {
    if x.Missing? then false else StartsWith(StrOf(x), HTTPS)
  }

  /** The two scripts compute the same column: `str(nan)` is "nan", which does not start
      with `https://`, so the explicit NaN test of the second one changes nothing. */
  lemma {:induction false} VersionsAgree(rows: seq<Row>)
    ensures FixV1(rows) == FixV2(rows)
    decreases |rows|
  {
    if rows != [] {
      assert SslV1(rows[0].url) == SslV2(rows[0].url);
      VersionsAgree(rows[1..]);
    }
  }

  /** For a URL cell holding text, the recomputed flag is the `check_ssl` of the script
      that wrote the table; a missing URL gives False. */
  lemma FixMatchesCheckSsl(x: Value)
    ensures SslV2(x) == (x.Str? && Exercise12.CheckSsl(x.s))
    ensures SslV2(x) == (x.Str? && HttpsGuard(x.s))
  {
    if x.Str? {
      assert Exercise12.CheckSsl(x.s) <==> StartsWith(x.s, HTTPS);
    }
  }

  /** `df['SSL'] = df['URL'].apply(rule)`: the SSL column of every row is replaced by the
      rule applied to the row's URL. */
  function Recompute(rows: seq<Row>, rule: Value -> bool): (fixed: seq<Row>)
    ensures |fixed| == |rows|
    ensures forall i :: 0 <= i < |rows| ==>
      fixed[i].url == rows[i].url && fixed[i].others == rows[i].others
      && fixed[i].ssl == Flag(rule(rows[i].url))
    decreases |rows|
  {
    if rows == [] then []
    else [Row(rows[0].url, Flag(rule(rows[0].url)), rows[0].others)] + Recompute(rows[1..], rule)
  }

  function FixV1(rows: seq<Row>): seq<Row> {
    Recompute(rows, SslV1)
  }

  function FixV2(rows: seq<Row>): seq<Row> {
    Recompute(rows, SslV2)
  }

  /** Running either script a second time leaves the table as the first run wrote it. */
  lemma {:induction false} RecomputeIdempotent(rows: seq<Row>, rule: Value -> bool)
    ensures Recompute(Recompute(rows, rule), rule) == Recompute(rows, rule)
    decreases |rows|
  {
    if rows != [] {
      RecomputeIdempotent(rows[1..], rule);
      assert Recompute(rows, rule)[1..] == Recompute(rows[1..], rule);
    }
  }

  lemma FixV1Idempotent(rows: seq<Row>)
    ensures FixV1(FixV1(rows)) == FixV1(rows)
  {
    RecomputeIdempotent(rows, SslV1);
  }

  lemma FixV2Idempotent(rows: seq<Row>)
    ensures FixV2(FixV2(rows)) == FixV2(rows)
  {
    RecomputeIdempotent(rows, SslV2);
  }

  /** `df['SSL'].sum()`: the number of rows whose SSL cell is True. */
  function SslCount(rows: seq<Row>): nat
    decreases |rows|
  {
    if rows == [] then 0 else (if rows[0].ssl == Flag(true) then 1 else 0) + SslCount(rows[1..])
  }

  /** The number of rows whose URL is text starting with `https://`. */
  function HttpsCount(rows: seq<Row>): nat
    decreases |rows|
  {
    if rows == [] then 0
    else (if rows[0].url.Str? && StartsWith(rows[0].url.s, HTTPS) then 1 else 0) + HttpsCount(rows[1..])
  }

  /** fix_ssl_v2.py line 11: the count printed after the rewrite is the number of rows
      with an https URL, whatever the SSL column held before. */
  lemma {:induction false} CountAfterFix(rows: seq<Row>)
    ensures SslCount(FixV2(rows)) == HttpsCount(rows)
    ensures SslCount(FixV2(rows)) <= |rows|
    decreases |rows|
  {
    if rows != [] {
      CountAfterFix(rows[1..]);
      assert FixV2(rows)[1..] == FixV2(rows[1..]);
    }
  }
}
