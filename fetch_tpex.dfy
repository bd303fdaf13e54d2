/**
 * app/pipeline/fetch_tpex.py: the TPEX daily close quotes arrive as CSV open
 * data. The script finds the header line, keeps the data lines after it,
 * converts the report's ROC date to a Gregorian `YYYYMMDD` stamp and saves
 * the payload as data/inbound/`tpex_stk_quote_<YYYYMMDD>.json`.
 *
 * The HTTP download is a parameter (`None` when it raised), and so are the
 * clock (`today`) and `json.dumps` (`dump`).
 */
module FetchTpex {
  import opened Wrappers
  import opened Text
  import opened Seqs
  import opened JsonValue
  import opened Dates
  import PrepareInput

  // ---------------------------------------------------------------------------
  // _extract_report_date
  // ---------------------------------------------------------------------------

  /** `\s*` from position `i`: the first position after the blanks. */
  function SkipSpaces(t: string, i: nat): (j: nat)
    requires i <= |t|
    ensures i <= j <= |t|
    ensures forall k :: i <= k < j ==> IsSpace(t[k])
    ensures j == |t| || !IsSpace(t[j])
    decreases |t| - i
  {
    if i < |t| && IsSpace(t[i]) then SkipSpaces(t, i + 1) else i
  }

  /** `[0-9]{3}/[0-9]{2}/[0-9]{2}`: an ROC date as the report prints it. */
  predicate IsRocDate(s: string) {
    |s| == 9 && AllDigits(s[..3]) && s[3] == '/' && AllDigits(s[4..6]) && s[6] == '/' && AllDigits(s[7..])
  }

  predicate IsLabel(s: string) {
    s == "資料日期" || s == "reportDate"
  }

  predicate IsColon(c: char) {
    c == ':' || c == '：'
  }

  /**
   * The pattern tried at position `i`: a label, blanks, an ASCII or full-width
   * colon, blanks, then the date. Blanks never match a colon or a digit, so the
   * greedy `\s*` leaves nothing to backtrack into.
   */
  function MatchAt(t: string, i: nat): (r: Option<string>)
    requires i <= |t|
    ensures r.Some? ==> IsRocDate(r.value)
  {
    var after :=
      if StartsWith(t[i..], "資料日期") then i + 4
      else if StartsWith(t[i..], "reportDate") then i + 10
      else -1;
    if after < 0 then None
    else
      var j := SkipSpaces(t, after);
      if j < |t| && IsColon(t[j]) then
        var k := SkipSpaces(t, j + 1);
        if k + 9 <= |t| && IsRocDate(t[k..k + 9]) then Some(t[k..k + 9]) else None
      else None
  }

  /** `re.search` from position `i` on: the date of the leftmost match. */
  function SearchFrom(t: string, i: nat): (r: string)
    requires i <= |t|
    ensures r == "" || IsRocDate(r)
    decreases |t| - i
  {
    match MatchAt(t, i)
    case Some(d) => d
    case None => if i == |t| then "" else SearchFrom(t, i + 1)
  }

  /** `_extract_report_date`: the ROC date after the first label, or "". */
  function ExtractReportDate(t: string): (r: string)
    ensures r == "" || IsRocDate(r)
  {
    SearchFrom(t, 0)
  }

  /** The blanks end where the first non-blank is. */
  lemma SkipTo(t: string, i: nat, j: nat)
    requires i <= j < |t| && !IsSpace(t[j])
    requires forall x :: i <= x < j ==> IsSpace(t[x])
    ensures SkipSpaces(t, i) == j
  {
  }

  /** A text that opens with a labelled date gives that date. */
  lemma LabelledDateFound(tag: string, s1: string, colon: char, s2: string, date: string, rest: string)
    requires IsLabel(tag) && IsColon(colon) && IsRocDate(date)
    requires forall c :: c in s1 ==> IsSpace(c)
    requires forall c :: c in s2 ==> IsSpace(c)
    ensures ExtractReportDate(tag + s1 + [colon] + s2 + date + rest) == date
  {
    var t := tag + s1 + [colon] + s2 + date + rest;
    var j := |tag| + |s1|;
    var k := j + 1 + |s2|;
    assert t[0..] == t;
    assert t[..|tag|] == tag;
    assert tag == "reportDate" ==> t[..4] != "資料日期" by {
      if tag == "reportDate" {
        assert t[..4][0] == 'r';
      }
    }
    forall x | |tag| <= x < j
      ensures IsSpace(t[x])
    {
      assert t[x] == s1[x - |tag|];
    }
    assert t[j] == colon;
    SkipTo(t, |tag|, j);
    forall x | j + 1 <= x < k
      ensures IsSpace(t[x])
    {
      assert t[x] == s2[x - j - 1];
    }
    assert t[k..k + 9] == date;
    assert IsDigit(date[..3][0]);
    SkipTo(t, j + 1, k);
    assert MatchAt(t, 0) == Some(date);
  }

  /** `p` found at position `i` means `t` contains `p`. */
  lemma {:induction false} ContainsFrom(t: string, i: nat, p: string)
    requires i <= |t| && StartsWith(t[i..], p)
    ensures Contains(t, p)
    decreases i
  {
    if i == 0 {
      assert t[0..] == t;
    } else {
      assert t[1..][i - 1..] == t[i..];
      ContainsFrom(t[1..], i - 1, p);
    }
  }

  /** Without either label the report date is "". */
  lemma {:induction false} NoLabelNoDate(t: string, i: nat)
    requires i <= |t|
    requires !Contains(t, "資料日期") && !Contains(t, "reportDate")
    ensures SearchFrom(t, i) == ""
    decreases |t| - i
  {
    if StartsWith(t[i..], "資料日期") {
      ContainsFrom(t, i, "資料日期");
    } else if StartsWith(t[i..], "reportDate") {
      ContainsFrom(t, i, "reportDate");
    } else if i < |t| {
      NoLabelNoDate(t, i + 1);
    }
  }

  // ---------------------------------------------------------------------------
  // _roc_to_ad_yyyymmdd
  // ---------------------------------------------------------------------------

  /** `f"{n:0{w}d}"`: the sign first, zeros after it, `w` characters at least in all. */
  function FormatInt(n: int, w: nat): string {
    if n < 0 then "-" + PadLeft(NatToString(-n), if w >= 1 then w - 1 else 0, '0')
    else PadLeft(NatToString(n), w, '0')
  }

  /**
   * `_roc_to_ad_yyyymmdd`: three `/`-separated integers, the year moved by
   * 1911; anything `split`/`int` refuses gives today's stamp instead.
   */
  function RocToAd(roc: string, today: Date): string
    requires Valid(today)
  {
    var parts := Split(roc, '/');
    if |parts| != 3 then Yyyymmdd(today)
    else
      var y, m, d := PyInt(parts[0]), PyInt(parts[1]), PyInt(parts[2]);
      if y.Some? && m.Some? && d.Some? then AdStamp(y.value, m.value, d.value)
      else Yyyymmdd(today)
  }

  /** `f"{ad_y:04d}{int(m):02d}{int(d):02d}"` with the ROC year moved to the Gregorian one. */
  function AdStamp(y: int, m: int, d: int): string {
    FormatInt(y + 1911, 4) + FormatInt(m, 2) + FormatInt(d, 2)
  }

  /** A three-digit ROC year and two-digit month and day give eight digits that spell the Gregorian date. */
  lemma AdStampValue(y: nat, m: nat, d: nat)
    requires y < 1000 && m < 100 && d < 100
    ensures |AdStamp(y, m, d)| == 8 && AllDigits(AdStamp(y, m, d))
    ensures DigitsValue(AdStamp(y, m, d)) == (y + 1911) * 10000 + m * 100 + d
  {
    assert FormatInt(y + 1911, 4) == Pad(y + 1911, 4);
    assert FormatInt(m, 2) == Pad(m, 2);
    assert FormatInt(d, 2) == Pad(d, 2);
    PaddedStamp(y + 1911, m, d);
  }

  /** The first `/` of a string whose first `n` characters are digits and whose next one is `/`. */
  lemma SlashAfterDigits(s: string, n: nat)
    requires n < |s| && AllDigits(s[..n]) && s[n] == '/'
    ensures IndexOf(s, '/') == n
  {
    assert forall x :: 0 <= x < n ==> IsDigit(s[..n][x]) && s[..n][x] == s[x];
  }

  /** Splitting `a/b/c` where no part holds a `/`. */
  lemma SplitThree(s: string)
    requires IsRocDate(s)
    ensures Split(s, '/') == [s[..3], s[4..6], s[7..]]
  {
    SlashAfterDigits(s, 3);
    var t := s[4..];
    assert t[..2] == s[4..6];
    SlashAfterDigits(t, 2);
    var u := t[3..];
    assert u == s[7..];
    assert IsDigit(u[0]) && IsDigit(u[1]);
    assert Split(u, '/') == [u];
    assert Split(t, '/') == [s[4..6]] + Split(u, '/');
    assert Split(s, '/') == [s[..3]] + Split(t, '/');
  }

  /** A run of digits is already stripped and reads as its value. */
  lemma PyIntDigits(s: string)
    requires s != [] && AllDigits(s)
    ensures PyInt(s) == Some(DigitsValue(s) as int)
  {
    DigitNotSign(s[0]);
    DigitNotSign(s[|s| - 1]);
    StripKeeps(s);
    var t := Strip(s);
    assert t == s;
    assert t != [] && AllDigits(t) && !(t[0] == '-' || t[0] == '+');
  }

  /** 115/02/11 becomes 20260211: eight digits spelling the year plus 1911, the month and the day. */
  lemma RocToAdValue(roc: string, today: Date)
    requires IsRocDate(roc) && Valid(today)
    ensures var r := RocToAd(roc, today);
            |r| == 8 && AllDigits(r)
            && DigitsValue(r) == (DigitsValue(roc[..3]) + 1911) * 10000 + DigitsValue(roc[4..6]) * 100 + DigitsValue(roc[7..])
  {
    var a, b, c := roc[..3], roc[4..6], roc[7..];
    SplitThree(roc);
    PyIntDigits(a);
    PyIntDigits(b);
    PyIntDigits(c);
    var y, m, d := DigitsValue(a), DigitsValue(b), DigitsValue(c);
    DigitsValueBound(a);
    DigitsValueBound(b);
    DigitsValueBound(c);
    assert Pow10(3) == 1000 && Pow10(2) == 100;
    var parts := Split(roc, '/');
    assert parts[0] == a && parts[1] == b && parts[2] == c;
    assert RocToAd(roc, today) == AdStamp(y, m, d);
    AdStampValue(y, m, d);
  }

  /** Text that holds no `/` cannot be split in three: the stamp is today's. */
  lemma RocToAdFallback(roc: string, today: Date)
    requires Valid(today) && '/' !in roc
    ensures RocToAd(roc, today) == Yyyymmdd(today)
  {
    assert IndexOf(roc, '/') == |roc|;
  }

  // ---------------------------------------------------------------------------
  // csv.reader on one line
  // ---------------------------------------------------------------------------

  /** The states of the `csv` module's reader (default dialect) inside one line. */
  datatype CsvState = StartField | InField | InQuoted | QuoteInQuoted

  datatype CsvReader = CsvReader(state: CsvState, field: string, fields: seq<string>)

  /**
   * One character. The lines never hold `\r` or `\n` (the text is split on
   * them first), so only the delimiter and the quote are special; after a
   * closing quote any other character is kept, as the non-strict reader does.
   */
  function Step(r: CsvReader, c: char): CsvReader {
    match r.state
    case StartField =>
      if c == '"' then r.(state := InQuoted)
      else if c == ',' then CsvReader(StartField, "", r.fields + [r.field])
      else CsvReader(InField, r.field + [c], r.fields)
    case InField =>
      if c == ',' then CsvReader(StartField, "", r.fields + [r.field])
      else r.(field := r.field + [c])
    case InQuoted =>
      if c == '"' then r.(state := QuoteInQuoted) else r.(field := r.field + [c])
    case QuoteInQuoted =>
      if c == '"' then CsvReader(InQuoted, r.field + [c], r.fields)
      else if c == ',' then CsvReader(StartField, "", r.fields + [r.field])
      else CsvReader(InField, r.field + [c], r.fields)
  }

  function Feed(r: CsvReader, s: string): CsvReader
    decreases |s|
  {
    if s == [] then r else Feed(Step(r, s[0]), s[1..])
  }

  /**
   * `next(csv.reader([ln]))`: an empty line is an empty record; otherwise the
   * field in progress ends the record, even inside an unclosed quote.
   */
  function ReadRow(ln: string): seq<string> {
    if ln == [] then []
    else
      var r := Feed(CsvReader(StartField, "", []), ln);
      r.fields + [r.field]
  }

  /** Splitting a string that starts with an ordinary character: it joins the first part. */
  lemma SplitCons(s: string, sep: char)
    requires s != [] && s[0] != sep
    ensures var p := Split(s[1..], sep);
            Split(s, sep) == [[s[0]] + p[0]] + p[1..]
  {
    var k := IndexOf(s, sep);
    assert k == 1 + IndexOf(s[1..], sep);
    if k < |s| {
      assert s[..k] == [s[0]] + s[1..][..k - 1];
      assert s[1..][k..] == s[k + 1..];
    } else {
      assert s == [s[0]] + s[1..];
    }
  }

  /** Ordinary characters (no comma, no quote) only extend the field in progress. */
  lemma {:induction false} FeedPlain(r: CsvReader, t: string)
    requires r.state == StartField || r.state == InField
    requires r.state == StartField ==> r.field == ""
    requires '"' !in t && ',' !in t
    ensures Feed(r, t) == CsvReader(if t == [] then r.state else InField, r.field + t, r.fields)
    decreases |t|
  {
    if t != [] {
      var r2 := Step(r, t[0]);
      assert r2 == CsvReader(InField, r.field + [t[0]], r.fields);
      FeedPlain(r2, t[1..]);
      assert r.field + [t[0]] + t[1..] == r.field + t;
    }
  }

  /** A prefix of a text without quotes has none either. */
  lemma QuoteFreePrefix(s: string, k: nat)
    requires '"' !in s && k <= |s|
    ensures '"' !in s[..k]
  {
    assert s == s[..k] + s[k..];
  }

  /** A suffix of a text without quotes has none either. */
  lemma QuoteFreeSuffix(s: string, k: nat)
    requires '"' !in s && k <= |s|
    ensures '"' !in s[k..]
  {
    assert s == s[..k] + s[k..];
  }

  /** Reading a text is reading its first `k` characters, then the others. */
  lemma FeedSplitAt(r: CsvReader, s: string, k: nat)
    requires k <= |s|
    ensures Feed(r, s) == Feed(Feed(r, s[..k]), s[k..])
  {
    assert s == s[..k] + s[k..];
    FeedAppend(r, s[..k], s[k..]);
  }

  /** Outside quotes a comma closes the field in progress. */
  lemma CommaCloses(m: CsvReader)
    requires m.state == StartField || m.state == InField
    ensures Step(m, ',') == CsvReader(StartField, "", m.fields + [m.field])
  {
  }

  /** Reading a text from position `k` is reading the character there, then the rest. */
  lemma FeedAt(r: CsvReader, s: string, k: nat)
    requires k < |s|
    ensures Feed(r, s[k..]) == Feed(Step(r, s[k]), s[k + 1..])
  {
    assert s[k..][1..] == s[k + 1..];
  }

  /** Up to the first comma the field grows; the comma closes it and starts a new one. */
  lemma FeedToComma(r: CsvReader, s: string)
    requires r.state == StartField || r.state == InField
    requires r.state == StartField ==> r.field == ""
    requires '"' !in s && IndexOf(s, ',') < |s|
    ensures var k := IndexOf(s, ',');
            Feed(r, s) == Feed(CsvReader(StartField, "", r.fields + [r.field + s[..k]]), s[k + 1..])
  {
    var k := IndexOf(s, ',');
    FeedSplitAt(r, s, k);
    QuoteFreePrefix(s, k);
    FeedPlain(r, s[..k]);
    var m := Feed(r, s[..k]);
    FeedAt(m, s, k);
    CommaCloses(m);
  }

  /** The record a reader ends a line with: the closed fields and the one in progress. */
  function Record(e: CsvReader): seq<string> {
    e.fields + [e.field]
  }

  /** The list step of `FeedNoQuotes`: the first part joins the field in progress, the others follow. */
  lemma RecordShape(fields: seq<string>, f: string, head: string, p: seq<string>, parts: seq<string>, rec: seq<string>)
    requires |p| >= 1 && parts == [head] + p
    requires rec == fields + [f + head] + ["" + p[0]] + p[1..]
    ensures rec == fields + [f + parts[0]] + parts[1..]
  {
    assert "" + p[0] == p[0];
    assert p == [p[0]] + p[1..];
  }

  /** Without quotes the reader cuts at every comma: what remains is `str.split(",")`. */
  lemma {:induction false} FeedNoQuotes(r: CsvReader, s: string)
    requires r.state == StartField || r.state == InField
    requires r.state == StartField ==> r.field == ""
    requires '"' !in s
    ensures var parts := Split(s, ',');
            Record(Feed(r, s)) == r.fields + [r.field + parts[0]] + parts[1..]
    decreases |s|
  {
    var k := IndexOf(s, ',');
    if k == |s| {
      FeedPlain(r, s);
      assert Split(s, ',') == [s];
    } else {
      var m2 := CsvReader(StartField, "", r.fields + [r.field + s[..k]]);
      QuoteFreeSuffix(s, k + 1);
      FeedToComma(r, s);
      FeedNoQuotes(m2, s[k + 1..]);
      var p := Split(s[k + 1..], ',');
      assert Split(s, ',') == [s[..k]] + p;
      RecordShape(r.fields, r.field, s[..k], p, Split(s, ','), Record(Feed(r, s)));
    }
  }

  /** A line without quotes reads as `ln.split(",")`. */
  lemma NoQuotesIsSplit(ln: string)
    requires ln != [] && '"' !in ln
    ensures ReadRow(ln) == Split(ln, ',')
  {
    FeedNoQuotes(CsvReader(StartField, "", []), ln);
    var parts := Split(ln, ',');
    assert parts == [parts[0]] + parts[1..];
    assert "" + parts[0] == parts[0];
  }

  lemma {:induction false} FeedAppend(r: CsvReader, s: string, t: string)
    ensures Feed(r, s + t) == Feed(Feed(r, s), t)
    decreases |s|
  {
    if s == [] {
      assert s + t == t;
    } else {
      assert (s + t)[1..] == s[1..] + t;
      FeedAppend(Step(r, s[0]), s[1..], t);
    }
  }

  /** Inside quotes every character but the quote belongs to the field, commas included. */
  lemma {:induction false} FeedQuoted(r: CsvReader, s: string)
    requires r.state == InQuoted && '"' !in s
    ensures Feed(r, s) == r.(field := r.field + s)
    decreases |s|
  {
    if s != [] {
      FeedQuoted(Step(r, s[0]), s[1..]);
      assert r.field + [s[0]] + s[1..] == r.field + s;
    }
  }

  /** Reading a quoted first cell and the comma after it leaves that cell closed and a new field open. */
  lemma FeedQuotedCell(a: string, rest: string)
    requires '"' !in a
    ensures Feed(CsvReader(StartField, "", []), "\"" + a + "\"," + rest) == Feed(CsvReader(StartField, "", [a]), rest)
  {
    var ln := "\"" + a + "\"," + rest;
    var start := CsvReader(StartField, "", []);
    var q := CsvReader(InQuoted, "", []);
    var qa := CsvReader(InQuoted, a, []);
    var m := CsvReader(StartField, "", [a]);
    assert Feed(start, ln) == Feed(q, a + ("\"," + rest)) by {
      assert ln == "\"" + (a + ("\"," + rest));
      FeedAppend(start, "\"", a + ("\"," + rest));
    }
    assert Feed(q, a + ("\"," + rest)) == Feed(qa, "\"," + rest) by {
      FeedAppend(q, a, "\"," + rest);
      FeedQuoted(q, a);
      assert "" + a == a;
    }
    assert Feed(qa, "\"," + rest) == Feed(m, rest) by {
      FeedAppend(qa, "\",", rest);
      var closing := CsvReader(QuoteInQuoted, a, []);
      assert Step(qa, '"') == closing;
      assert Step(closing, ',') == m;
      assert "\","[1..] == ",";
      assert Feed(qa, "\",") == Feed(closing, ",");
      assert ","[1..] == "" && Feed(closing, ",") == Feed(m, "");
    }
  }

  /** A quoted first cell keeps its commas (`"1,234",...`); the rest of the line splits at commas. */
  lemma QuotedCellKeepsCommas(a: string, rest: string)
    requires '"' !in a && '"' !in rest
    ensures ReadRow("\"" + a + "\"," + rest) == [a] + Split(rest, ',')
  {
    var m := CsvReader(StartField, "", [a]);
    FeedQuotedCell(a, rest);
    FeedNoQuotes(m, rest);
    var p := Split(rest, ',');
    assert "" + p[0] == p[0];
    assert p == [p[0]] + p[1..];
  }

  // ---------------------------------------------------------------------------
  // _parse_csv_to_payload
  // ---------------------------------------------------------------------------

  /** `text.replace("\r", "").split("\n")` without the blank lines. */
  function Lines(text: string): seq<string> {
    Filter(Split(Filter(text, (c: char) => c != '\r'), '\n'), (ln: string) => Strip(ln) != "")
  }

  /** `[c.strip() for c in row]`. */
  function StripAll(raw: seq<string>): (row: seq<string>)
    ensures |row| == |raw|
  {
    if raw == [] then [] else [Strip(raw[0])] + StripAll(raw[1..])
  }

  lemma {:induction false} StripAllAt(raw: seq<string>, i: nat)
    requires i < |raw|
    ensures StripAll(raw)[i] == Strip(raw[i])
  {
    var rest := StripAll(raw[1..]);
    assert StripAll(raw) == [Strip(raw[0])] + rest;
    if i > 0 {
      StripAllAt(raw[1..], i - 1);
      assert StripAll(raw)[i] == rest[i - 1];
    }
  }

  /** The cells of a line, each stripped. */
  function Cells(ln: string): (row: seq<string>)
    ensures |row| == |ReadRow(ln)|
  {
    StripAll(ReadRow(ln))
  }

  /** The three cells the header must hold: code, name and close. */
  predicate IsHeader(row: seq<string>) {
    "代號" in row && "名稱" in row && "收盤" in row
  }

  /** Each line's stripped cells. */
  function CellRows(lines: seq<string>): (rows: seq<seq<string>>)
    ensures |rows| == |lines|
  {
    seq(|lines|, i requires 0 <= i < |lines| => Cells(lines[i]))
  }

  /** The first header among the first 50 rows, from row `i` on; -1 when there is none. */
  function HeaderFrom(rows: seq<seq<string>>, i: nat): (h: int)
    ensures h == -1 || (i <= h < |rows| && h < 50 && IsHeader(rows[h]))
    decreases |rows| - i
  {
    if i >= |rows| || i >= 50 then -1
    else if IsHeader(rows[i]) then i
    else HeaderFrom(rows, i + 1)
  }

  /** The header is the first of the first 50 lines with code, name and close; -1 exactly when none of them has. */
  lemma {:induction false} HeaderIsFirst(rows: seq<seq<string>>, i: nat)
    ensures var h := HeaderFrom(rows, i);
            (h == -1 <==> forall j :: i <= j < |rows| && j < 50 ==> !IsHeader(rows[j]))
            && (h >= 0 ==> IsHeader(rows[h]) && forall j :: i <= j < h ==> !IsHeader(rows[j]))
    decreases |rows| - i
  {
    if i < |rows| && i < 50 && !IsHeader(rows[i]) {
      HeaderIsFirst(rows, i + 1);
    }
  }

  /** The header search of `_parse_csv_to_payload`, stopping at the first hit. */
  method FindHeader(lines: seq<string>) returns (idx: int, header: seq<string>)
    ensures idx == HeaderFrom(CellRows(lines), 0)
    ensures header == if idx >= 0 then CellRows(lines)[idx] else []
  {
    idx := -1;
    header := [];
    var window := if |lines| <= 50 then lines else lines[..50];
    var i := 0;
    while i < |window|
      invariant 0 <= i <= |window|
      invariant HeaderFrom(CellRows(lines), i) == HeaderFrom(CellRows(lines), 0)
    {
      var row := Cells(window[i]);
      assert row == CellRows(lines)[i];
      if IsHeader(row) {
        idx := i;
        header := row;
        break;
      }
      i := i + 1;
    }
  }

  /** A data line's cells, kept when there are five or more and the first is not empty. */
  function DataRow(row: seq<string>): (r: Option<seq<string>>)
    ensures r.Some? <==> |row| >= 5 && row[0] != ""
    ensures r.Some? ==> r.value == row
  {
    if |row| < 5 || row[0] == "" then None else Some(row)
  }

  const FetchUrl := "https://www.tpex.org.tw/web/stock/aftertrading/DAILY_CLOSE_quotes/stk_quote_result.php?l=zh-tw&o=data"

  function StrList(xs: seq<string>): (js: seq<Json>)
    ensures |js| == |xs|
  {
    seq(|xs|, i requires 0 <= i < |xs| => JStr(xs[i]))
  }

  function RowList(rows: seq<seq<string>>): (js: seq<Json>)
    ensures |js| == |rows|
  {
    seq(|rows|, i requires 0 <= i < |rows| => JArr(StrList(rows[i])))
  }

  /** What a parse yields: the file's date stamp, the ROC report date, the header cells and the data rows. */
  datatype Quote = Quote(stamp: string, reportDate: string, header: seq<string>, rows: seq<seq<string>>)

  /** The saved payload: the ROC report date, the header, the data rows and where they came from. */
  function Payload(q: Quote): seq<Field> {
    [ Field("reportDate", JStr(q.reportDate)),
      Field("fields", JArr(StrList(q.header))),
      Field("aaData", JArr(RowList(q.rows))),
      Field("_fetch_url", JStr(FetchUrl)),
      Field("_format", JStr("csv_open_data")) ]
  }

  /** The two `RuntimeError`s of `_parse_csv_to_payload`. */
  datatype ParseError = NoHeader | NoRows


  /** The stamp of the saved file: the report's ROC date converted, or today's when the report has none. */
  function Stamp(roc: string, today: Date): string
    requires Valid(today)
  {
    if roc != "" then RocToAd(roc, today) else Yyyymmdd(today)
  }

  /** `_parse_csv_to_payload` once every non-blank line is read into its cells and the report date is known. */
  function ParseRows(rows: seq<seq<string>>, roc: string, today: Date): Result<Quote, ParseError>
    requires Valid(today)
  {
    var h := HeaderFrom(rows, 0);
    if h < 0 then Failure(NoHeader)
    else
      var data := FilterMap(rows[h + 1..], DataRow);
      if data == [] then Failure(NoRows)
      else Success(Quote(Stamp(roc, today), roc, rows[h], data))
  }

  /** `_parse_csv_to_payload` once the text is cut into non-blank lines and the report date is read. */
  function ParseLines(lines: seq<string>, roc: string, today: Date): Result<Quote, ParseError>
    requires Valid(today)
  {
    ParseRows(CellRows(lines), roc, today)
  }

  /** `_parse_csv_to_payload`: the date stamp and the payload, or the error raised. */
  function ParseCsv(text: string, today: Date): Result<Quote, ParseError>
    requires Valid(today)
  {
    ParseLines(Lines(text), ExtractReportDate(text), today)
  }

  /** The two loops of `_parse_csv_to_payload` over the non-blank lines: the header search, then the data lines after it. */
  method ParseLinesLoop(lines: seq<string>, roc: string, today: Date) returns (r: Result<Quote, ParseError>)
    requires Valid(today)
    ensures r == ParseLines(lines, roc, today)
  {
    var idx, header := FindHeader(lines);
    HeaderIsFirst(CellRows(lines), 0);
    if idx < 0 || header == [] {
      return Failure(NoHeader);
    }
    var rows := Collect(CellRows(lines)[idx + 1..], DataRow);
    if |rows| == 0 {
      return Failure(NoRows);
    }
    var stamp := if roc != "" then RocToAd(roc, today) else Yyyymmdd(today);
    return Success(Quote(stamp, roc, header, rows));
  }

  /** `_parse_csv_to_payload`: the lines and the report date are read from the whole text. */
  method ParseCsvToPayload(text: string, today: Date) returns (r: Result<Quote, ParseError>)
    requires Valid(today)
    ensures r == ParseCsv(text, today)
  {
    var lines := Lines(text);
    var roc := ExtractReportDate(text);
    r := ParseLinesLoop(lines, roc, today);
  }

  /** Nothing is collected exactly when no element gives a value. */
  lemma FilterMapEmpty<T, U>(xs: seq<T>, f: T -> Option<U>)
    ensures FilterMap(xs, f) == [] <==> forall i :: 0 <= i < |xs| ==> f(xs[i]).None?
  {
    var r := FilterMap(xs, f);
    if r != [] {
      FilterMapMembers(xs, f, r[0]);
    }
    if exists i :: 0 <= i < |xs| && f(xs[i]).Some? {
      var i :| 0 <= i < |xs| && f(xs[i]).Some?;
      FilterMapMembers(xs, f, f(xs[i]).value);
    }
  }

  /** The parse fails for want of a header exactly when none of the first 50 non-blank lines has one. */
  lemma NoHeaderError(rows: seq<seq<string>>, roc: string, today: Date)
    requires Valid(today)
    ensures ParseRows(rows, roc, today) == Failure(NoHeader) <==>
              forall j :: 0 <= j < |rows| && j < 50 ==> !IsHeader(rows[j])
  {
    HeaderIsFirst(rows, 0);
  }

  /** The parse fails for want of rows exactly when no line after the header has five cells and a first one. */
  lemma NoRowsError(rows: seq<seq<string>>, roc: string, today: Date)
    requires Valid(today)
    ensures var h := HeaderFrom(rows, 0);
            ParseRows(rows, roc, today) == Failure(NoRows) <==>
              h >= 0 && forall j :: h < j < |rows| ==> DataRow(rows[j]).None?
  {
    var h := HeaderFrom(rows, 0);
    if h >= 0 {
      var tail := rows[h + 1..];
      FilterMapEmpty(tail, DataRow);
      assert forall j :: h < j < |rows| ==> rows[j] == tail[j - h - 1];
    }
  }

  /**
   * A successful parse keeps the report date, the first header line's cells
   * and exactly the data lines after it that have five cells and a first
   * one, in order; there is at least one of them.
   */
  lemma ParsedQuote(rows: seq<seq<string>>, roc: string, today: Date)
    requires Valid(today) && ParseRows(rows, roc, today).Success?
    ensures HeaderFrom(rows, 0) >= 0
    ensures ParseRows(rows, roc, today).value.header == rows[HeaderFrom(rows, 0)]
    ensures IsHeader(ParseRows(rows, roc, today).value.header)
    ensures ParseRows(rows, roc, today).value.reportDate == roc
    ensures ParseRows(rows, roc, today).value.stamp == Stamp(roc, today)
    ensures ParseRows(rows, roc, today).value.rows == FilterMap(rows[HeaderFrom(rows, 0) + 1..], DataRow)
    ensures ParseRows(rows, roc, today).value.rows != []
  {
  }

  /** Every kept data row has five cells or more and a non-empty first cell. */
  lemma DataRowsShape(xs: seq<seq<string>>)
    ensures forall row :: row in FilterMap(xs, DataRow) ==> |row| >= 5 && row[0] != ""
  {
    FilterMapAll(xs, DataRow, (row: seq<string>) => |row| >= 5 && row[0] != "");
  }

  /** The stamp is always eight digits: the converted report date, or today's when the report has none. */
  lemma StampIsEightDigits(text: string, today: Date)
    requires Valid(today)
    ensures var s := Stamp(ExtractReportDate(text), today);
            |s| == 8 && AllDigits(s)
  {
    var roc := ExtractReportDate(text);
    if roc != "" {
      RocToAdValue(roc, today);
    } else {
      YyyymmddValue(today);
    }
  }

  /** `prepare_input` finds the code, name and close columns in a saved payload, and both of its lists are non-empty. */
  lemma PreparedReadsHeader(lines: seq<string>, roc: string, today: Date)
    requires Valid(today) && ParseLines(lines, roc, today).Success?
    ensures var p := Payload(ParseLines(lines, roc, today).value);
            && NonEmptyList(Lookup(p, "fields")).Some?
            && NonEmptyList(Lookup(p, "aaData")).Some?
            && var c := PrepareInput.TpexColumns(PrepareInput.FieldNames(NonEmptyList(Lookup(p, "fields")).value));
               c.code >= 0 && c.name >= 0 && c.close >= 0
  {
    var rows := CellRows(lines);
    ParsedQuote(rows, roc, today);
    var q := ParseRows(rows, roc, today).value;
    var h := HeaderFrom(rows, 0);
    assert q.header == Cells(lines[h]);
    CellsStripped(lines[h]);
    HeaderColumns(q.header);
    PayloadLists(q);
  }

  /** The payload's two lists are the header and the rows, found again under their keys. */
  lemma PayloadLists(q: Quote)
    requires q.header != [] && q.rows != []
    ensures NonEmptyList(Lookup(Payload(q), "fields")) == Some(StrList(q.header))
    ensures NonEmptyList(Lookup(Payload(q), "aaData")).Some?
  {
    var p := Payload(q);
    assert Lookup(p, "aaData") == Lookup(p[1..], "aaData") == Lookup(p[2..], "aaData");
    assert p[2..][0] == Field("aaData", JArr(RowList(q.rows)));
  }

  /** Cells with nothing left to strip. */
  predicate Stripped(row: seq<string>) {
    forall i :: 0 <= i < |row| ==> Strip(row[i]) == row[i]
  }

  /** A header's cells, saved and read back as column names, give the code, name and close columns. */
  lemma HeaderColumns(header: seq<string>)
    requires IsHeader(header) && Stripped(header)
    ensures var c := PrepareInput.TpexColumns(PrepareInput.FieldNames(StrList(header)));
            c.code >= 0 && c.name >= 0 && c.close >= 0
  {
    StrippedNames(header);
    PrepareInput.PickFirstAlias(header, ["代號", "證券代號", "股票代號"]);
    PrepareInput.PickFirstAlias(header, ["名稱", "證券名稱", "股票名稱"]);
    PrepareInput.PickFirstAlias(header, ["收盤", "收盤價"]);
  }

  /** A line's cells have nothing left to strip. */
  lemma CellsStripped(ln: string)
    ensures Stripped(Cells(ln))
  {
    StripAllStripped(ReadRow(ln));
  }

  /** Every cell of `StripAll` is already stripped. */
  lemma {:induction false} StripAllStripped(raw: seq<string>)
    ensures Stripped(StripAll(raw))
  {
    if raw != [] {
      var r, rest := StripAll(raw), StripAll(raw[1..]);
      StripAllStripped(raw[1..]);
      assert r == [Strip(raw[0])] + rest;
      forall i | 0 <= i < |r|
        ensures Strip(r[i]) == r[i]
      {
        if i == 0 {
          StripTwice(raw[0]);
        } else {
          assert r[i] == rest[i - 1];
        }
      }
    }
  }

  /** Names that are already stripped come back unchanged from a saved list. */
  lemma StrippedNames(xs: seq<string>)
    requires Stripped(xs)
    ensures PrepareInput.FieldNames(StrList(xs)) == xs
  {
    var names := PrepareInput.FieldNames(StrList(xs));
    forall i | 0 <= i < |xs|
      ensures names[i] == xs[i]
    {
      assert StrList(xs)[i] == JStr(xs[i]);
    }
  }

  // ---------------------------------------------------------------------------
  // main
  // ---------------------------------------------------------------------------

  function FileName(stamp: string): string {
    PrepareInput.TpexPrefix + "_" + stamp + ".json"
  }

  /** A saved file is one that `prepare_input` looks for. */
  lemma SavedFileFound(text: string, today: Date)
    requires Valid(today)
    ensures PrepareInput.MatchesGlob(FileName(Stamp(ExtractReportDate(text), today)), PrepareInput.TpexPrefix)
  {
    StampIsEightDigits(text, today);
    var s := Stamp(ExtractReportDate(text), today);
    var p := PrepareInput.TpexPrefix + "_";
    assert FileName(s) == p + (s + ".json");
    assert FileName(s)[..|p|] == p;
    assert FileName(s)[|FileName(s)| - 5..] == ".json";
  }

  /** data/inbound, as file name to text. */
  class Inbound {
    var files: map<string, string>

    constructor (files0: map<string, string>)
      ensures files == files0
    {
      files := files0;
    }

    /**
     * `main`: a download that parses is saved under its stamp (exit 0); a
     * failed download or parse writes nothing and ends the run with status 1.
     */
    method Invoke(download: Option<string>, today: Date, dump: Json -> string) returns (exit: int)
      requires Valid(today)
      modifies this
      ensures download.None? ==> exit == 1 && files == old(files)
      ensures download.Some? ==>
                var r := ParseCsv(download.value, today);
                && exit == (if r.Success? then 0 else 1)
                && files == (if r.Success? then old(files)[FileName(r.value.stamp) := dump(JObj(Payload(r.value))) + "\n"]
                             else old(files))
    {
      if download.None? {
        return 1;
      }
      var r := ParseCsvToPayload(download.value, today);
      if r.Failure? {
        return 1;
      }
      files := files[FileName(r.value.stamp) := dump(JObj(Payload(r.value))) + "\n"];
      exit := 0;
    }
  }
}
