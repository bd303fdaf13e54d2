/**
 * app/pipeline/prepare_input.py: turns the latest TWSE and TPEX quote payloads
 * into daily_input.csv. Numbers and codes are cleaned, each exchange's table
 * is found by its column names, rows are de-duplicated by (market, code)
 * keeping the last, only common-stock codes stay, and the result must pass
 * sanity thresholds derived from the parsed universe before it is written.
 *
 * Payloads are JSON values; `json.loads` is the parameter `parse`.
 */
module PrepareInput {
  import opened Wrappers
  import opened Text
  import opened Seqs
  import opened JsonValue
  import opened Paths

  // ---------------------------------------------------------------------------
  // Helpers
  // ---------------------------------------------------------------------------

  /** `_strip_commas_num`: every comma removed, then the blanks at both ends. */
  function StripCommas(s: string): (t: string)
    ensures ',' !in t
  {
    var u := Filter(s, (c: char) => c != ',');
    NoCommaLeft(s);
    StripByMembers(u, Whitespace);
    Strip(u)
  }

  lemma NoCommaLeft(s: string)
    ensures ',' !in Filter(s, (c: char) => c != ',')
  {
    FilterMembers(s, (c: char) => c != ',', ',');
  }

  /** The texts the exchanges use for "no value". */
  predicate Placeholder(t: string) {
    t == "" || t == "-" || t == "—"
  }

  /** `_to_float`: placeholders and unparsable text read as 0. */
  function ToFloat(s: string): real {
    var t := StripCommas(s);
    if Placeholder(t) then 0.0
    else match PyFloat(t)
      case Some(x) => x
      case None => 0.0
  }

  /** `_to_int`: `int(float(s))`, with the same defaults. */
  function ToInt(s: string): int {
    var t := StripCommas(s);
    if Placeholder(t) then 0
    else match PyFloat(t)
      case Some(x) => Trunc(x)
      case None => 0
  }

  /** `_to_int` reads exactly what `_to_float` reads, truncated toward zero. */
  lemma ToIntTruncatesToFloat(s: string)
    ensures ToInt(s) == Trunc(ToFloat(s))
    ensures ToFloat(s) >= 0.0 ==> 0 <= ToInt(s) && ToInt(s) as real <= ToFloat(s) < ToInt(s) as real + 1.0
  {
  }

  /** A placeholder or text `float()` refuses reads as zero. */
  lemma UnreadableIsZero(s: string)
    requires Placeholder(StripCommas(s)) || PyFloat(StripCommas(s)).None?
    ensures ToFloat(s) == 0.0 && ToInt(s) == 0
  {
  }

  /** The length of the exchange suffix `re.sub(r"\.TWO$|\.TW$|\.T$", "", c, flags=re.IGNORECASE)` removes. */
  function SuffixLength(c: string): (k: nat)
    ensures k <= |c|
    ensures k == 0 || k == 2 || k == 3 || k == 4
  {
    var u := Upper(c);
    if EndsWith(u, ".TWO") then 4
    else if EndsWith(u, ".TW") then 3
    else if EndsWith(u, ".T") then 2
    else 0
  }

  /** `_clean_code`: trimmed, one exchange suffix removed whatever its case, trimmed again. */
  function CleanCode(code: string): string {
    var c := Strip(code);
    Strip(c[..|c| - SuffixLength(c)])
  }

  lemma EndsWithAt(u: string, p: string, i: nat)
    requires i < |p|
    ensures EndsWith(u, p) ==> u[|u| - |p| + i] == p[i]
  {
    if EndsWith(u, p) {
      assert u[|u| - |p|..][i] == p[i];
    }
  }

  /** A code with a suffix loses exactly the suffix, in any letter case. */
  lemma SuffixRemoved(base: string, suffix: string)
    requires Upper(suffix) == ".TWO" || Upper(suffix) == ".TW" || Upper(suffix) == ".T"
    ensures SuffixLength(base + suffix) == |suffix|
  {
    var u := Upper(base + suffix);
    assert u[|base|..] == Upper(suffix);
    assert EndsWith(u, Upper(suffix));
    assert u[|base|] == Upper(suffix)[0] == '.';
    if Upper(suffix) == ".TW" {
      EndsWithAt(u, ".TWO", 1);
    } else if Upper(suffix) == ".T" {
      EndsWithAt(u, ".TWO", 2);
      EndsWithAt(u, ".TW", 1);
    }
  }

  /** `_is_common_stock_code`: the trimmed code is four digits, the first not zero. */
  predicate IsCommonStockCode(code: string) {
    var c := Strip(code);
    |c| == 4 && '1' <= c[0] <= '9' && AllDigits(c)
  }

  /** Common-stock codes are the numbers 1000 to 9999, and every such number written out is one. */
  lemma CommonCodeRange(code: string, n: nat)
    ensures IsCommonStockCode(code) ==> 1000 <= DigitsValue(Strip(code)) <= 9999
    ensures 1000 <= n <= 9999 ==> IsCommonStockCode(NatToString(n))
  {
    if IsCommonStockCode(code) {
      var c := Strip(code);
      assert c[..3][..2][..1] == c[..1];
      assert DigitsValue(c[..1]) == DigitValue(c[0]) by {
        assert c[..1][..0] == [];
      }
      assert c[..3][..2] == c[..2] && c[..3] == c[..3];
      assert DigitsValue(c[..2]) == DigitsValue(c[..1]) * 10 + DigitValue(c[1]);
      assert DigitsValue(c[..3]) == DigitsValue(c[..2]) * 10 + DigitValue(c[2]);
      assert c[..4] == c;
      assert DigitsValue(c) == DigitsValue(c[..3]) * 10 + DigitValue(c[3]);
    }
    if 1000 <= n <= 9999 {
      var s := NatToString(n);
      FourDigits(n);
      assert !IsSpace(s[0]) && !IsSpace(s[3]);
      assert Strip(s) == s by {
        assert DropLeading(s, Whitespace) == s;
        assert DropTrailing(s, Whitespace) == s;
      }
    }
  }

  lemma FourDigits(n: nat)
    requires 1000 <= n <= 9999
    ensures |NatToString(n)| == 4 && NatToString(n)[0] != '0'
  {
    assert NatToString(n / 1000) == [DigitChar(n / 1000)];
    assert NatToString(n / 100) == NatToString(n / 1000) + [DigitChar(n / 100 % 10)];
    assert NatToString(n / 10) == NatToString(n / 100) + [DigitChar(n / 10 % 10)];
  }

  // ---------------------------------------------------------------------------
  // Parsed rows
  // ---------------------------------------------------------------------------

  /** One row of daily_input.csv, before it is written. */
  datatype DailyRow = DailyRow(code: string, name: string, market: string, close: real, volume: real,
                               tradeValue: real, turnover: real, shortUsedRatio: real, marginUsedRatio: real)

  /** `{str(name).strip(): i for i, name in enumerate(fields)}` looked up: a repeated name maps to its last position. */
  function NameIndex(names: seq<string>, key: string): (i: Option<nat>)
    ensures i.Some? ==> i.value < |names| && names[i.value] == key
                        && forall j :: i.value < j < |names| ==> names[j] != key
    ensures i.None? ==> key !in names
  {
    if names == [] then None
    else if names[|names| - 1] == key then Some(|names| - 1)
    else NameIndex(names[..|names| - 1], key)
  }

  /** The column names of a payload, each `str(x).strip()`. */
  function FieldNames(fields: seq<Json>): (names: seq<string>)
    ensures |names| == |fields|
  {
    seq(|fields|, i requires 0 <= i < |fields| => Strip(Str(fields[i])))
  }

  /**
   * The cells `g` can reach in a data row: a list's items, a string's
   * characters (indexing a string gives one-character strings), and nothing
   * in any other row, where `g` finds a value only by raising (see `RowRaises`).
   */
  function Items(row: Json): (cells: seq<Json>)
    ensures row.JArr? ==> cells == row.items
    ensures row.JStr? ==> |cells| == |row.s| && forall i :: 0 <= i < |cells| ==> cells[i] == JStr([row.s[i]])
    ensures !row.JArr? && !row.JStr? ==> cells == []
  {
    match row
    case JArr(items) => items
    case JStr(t) => seq(|t|, i requires 0 <= i < |t| => JStr([t[i]]))
    case _ => []
  }

  /** The five columns `parse_by_fields_data` reads from every row. */
  const ReadColumns: seq<string> := ["證券代號", "證券名稱", "成交股數", "成交金額", "收盤價"]

  /**
   * `g(row, key)` raises: the column is known and the row is a number, a bool
   * or a null (`len` raises TypeError), or a dict longer than the position (an
   * integer index is never a key of a JSON object, so KeyError).
   */
  predicate Unreadable(names: seq<string>, key: string, row: Json) {
    NameIndex(names, key).Some? &&
    (row.JNull? || row.JBool? || row.JNum? || (row.JObj? && NameIndex(names, key).value < |row.fields|))
  }

  /** Some column of `cols` cannot be read from `row`. */
  predicate Raises(names: seq<string>, cols: seq<string>, row: Json) {
    cols != [] && (Unreadable(names, cols[0], row) || Raises(names, cols[1..], row))
  }

  /** `g` raises on one of the five columns `parse_by_fields_data` reads. */
  predicate RowRaises(names: seq<string>, row: Json) {
    Raises(names, ReadColumns, row)
  }

  /** Some row of the table makes `parse_by_fields_data` raise. */
  predicate TableRaises(names: seq<string>, data: seq<Json>) {
    data != [] && (RowRaises(names, data[0]) || TableRaises(names, data[1..]))
  }

  /** `g` raises on a row exactly when one of the columns cannot be read from it. */
  lemma {:induction false} RaisesWhen(names: seq<string>, cols: seq<string>, row: Json)
    ensures Raises(names, cols, row) <==> exists k :: k in cols && Unreadable(names, k, row)
  {
    if cols != [] {
      RaisesWhen(names, cols[1..], row);
      if !Raises(names, cols, row) {
        forall k | k in cols ensures !Unreadable(names, k, row) {
          if k != cols[0] {
            assert cols == [cols[0]] + cols[1..];
          }
        }
      }
    }
  }

  /** A table raises exactly when one of its rows does. */
  lemma {:induction false} TableRaisesWhen(names: seq<string>, data: seq<Json>)
    ensures TableRaises(names, data) <==> exists i :: 0 <= i < |data| && RowRaises(names, data[i])
  {
    if data != [] {
      TableRaisesWhen(names, data[1..]);
      if !RowRaises(names, data[0]) && exists i :: 0 <= i < |data| && RowRaises(names, data[i]) {
        var i :| 0 <= i < |data| && RowRaises(names, data[i]);
        assert data[1..][i - 1] == data[i];
      }
    }
  }

  /** A string row is indexed by character: the cell at a position inside the string is that one character. */
  lemma StringRowCell(t: string, i: nat)
    ensures i < |t| ==> Cell(Items(JStr(t)), Some(i)) == [t[i]]
    ensures |t| <= i ==> Cell(Items(JStr(t)), Some(i)) == ""
  {
  }

  /** `g(row, key)`: the cell under `key`, or "" when the column is unknown or the row too short. */
  function Cell(row: seq<Json>, i: Option<nat>): string {
    if i.Some? && i.value < |row| then Str(row[i.value]) else ""
  }

  /** One row of `parse_by_fields_data`; a row whose cleaned code is empty is skipped. */
  function TwseRow(names: seq<string>, row: Json): (r: Option<DailyRow>)
    ensures r.Some? ==> r.value.market == "TWSE" && r.value.code != ""
  {
    var items := Items(row);
    var code := CleanCode(Cell(items, NameIndex(names, "證券代號")));
    var name := Strip(Cell(items, NameIndex(names, "證券名稱")));
    var vol := ToInt(Cell(items, NameIndex(names, "成交股數")));
    var tv := ToFloat(Cell(items, NameIndex(names, "成交金額")));
    var close := ToFloat(Cell(items, NameIndex(names, "收盤價")));
    if code == "" then None
    else Some(DailyRow(code, name, "TWSE", close, vol as real, tv, 0.0, 0.0, 0.0))
  }

  /** Each name stripped, as the index of `parse_by_fields_data` does once more. */
  function StripAll(fields: seq<string>): (names: seq<string>)
    ensures |names| == |fields|
  {
    seq(|fields|, i requires 0 <= i < |fields| => Strip(fields[i]))
  }

  /** `parse_by_fields_data`: the rows with a code, in order. */
  function TwseTable(fields: seq<string>, data: seq<Json>): seq<DailyRow> {
    FilterMap(data, (row: Json) => TwseRow(StripAll(fields), row))
  }

  /** The `fields` and `data` of a table, when both are non-empty lists. */
  function TableParts(t: Json): Option<(seq<Json>, seq<Json>)> {
    if !t.JObj? then None
    else match (NonEmptyList(Lookup(t.fields, "fields")), NonEmptyList(Lookup(t.fields, "data")))
      case (Some(fs), Some(data)) => Some((fs, data))
      case _ => None
  }

  const Need: seq<string> := ["證券代號", "證券名稱", "收盤價", "成交股數", "成交金額"]
  const LooseNeed: seq<string> := ["證券代號", "收盤價", "成交金額"]

  predicate HasAll(names: seq<string>, need: seq<string>) {
    forall k :: k in need ==> k in names
  }

  /** The first pass: all five columns. */
  predicate Strict(names: seq<string>) {
    HasAll(names, Need)
  }

  /** The "looser" second pass: three columns, plus the name and volume columns. */
  predicate Loose(names: seq<string>) {
    HasAll(names, LooseNeed) && "證券名稱" in names && "成交股數" in names
  }

  /** The second pass asks for the same five columns as the first, so it accepts exactly the same tables. */
  lemma LooseIsStrict(names: seq<string>)
    ensures Loose(names) <==> Strict(names)
  {
  }

  /** The first table, from `from` on, with both parts and column names `accept` takes. */
  function FirstTable(tables: seq<Json>, accept: seq<string> -> bool, from: nat): (r: Option<(seq<string>, seq<Json>)>)
    requires from <= |tables|
    decreases |tables| - from
  {
    if from == |tables| then None
    else match TableParts(tables[from])
      case Some((fs, data)) =>
        if accept(FieldNames(fs)) then Some((FieldNames(fs), data)) else FirstTable(tables, accept, from + 1)
      case None => FirstTable(tables, accept, from + 1)
  }

  /** Both passes find the same table, because they accept the same column sets. */
  lemma {:induction false} SecondPassFindsNothingNew(tables: seq<Json>, from: nat)
    requires from <= |tables|
    ensures FirstTable(tables, Loose, from) == FirstTable(tables, Strict, from)
    decreases |tables| - from
  {
    if from < |tables| {
      SecondPassFindsNothingNew(tables, from + 1);
      match TableParts(tables[from]) {
        case Some((fs, data)) => LooseIsStrict(FieldNames(fs));
        case None =>
      }
    }
  }

  /**
   * The table `parse_twse` hands to `parse_by_fields_data`: with a non-empty
   * `tables` list, the first table with the five columns, then the looser
   * pass, else none; otherwise the legacy `fields9`/`data9`.
   */
  function TwseChoice(doc: seq<Field>): Option<(seq<string>, seq<Json>)> {
    match NonEmptyList(Lookup(doc, "tables"))
    case Some(tables) =>
      (match FirstTable(tables, Strict, 0)
       case Some(t) => Some(t)
       case None => FirstTable(tables, Loose, 0))
    case None =>
      match (NonEmptyList(Lookup(doc, "fields9")), NonEmptyList(Lookup(doc, "data9")))
      case (Some(fs), Some(data)) => Some((FieldNames(fs), data))
      case _ => None
  }

  /** `parse_twse`: the rows of the chosen table, or none. */
  function ParseTwse(doc: seq<Field>): seq<DailyRow> {
    match TwseChoice(doc)
    case Some((names, data)) => TwseTable(names, data)
    case None => []
  }

  /** `parse_twse` raises: the chosen table holds a row `g` cannot read. */
  predicate TwseRaises(doc: seq<Field>) {
    TwseChoice(doc).Some? && TableRaises(StripAll(TwseChoice(doc).value.0), TwseChoice(doc).value.1)
  }

  /** The loop of `parse_by_fields_data`, appending one row at a time. */
  method ParseTable(fields: seq<string>, data: seq<Json>) returns (out: seq<DailyRow>)
    ensures out == TwseTable(fields, data)
  {
    out := Collect(data, (row: Json) => TwseRow(StripAll(fields), row));
  }

  /** Every row of a table has market "TWSE" and a non-empty code. */
  lemma TwseTableShape(fields: seq<string>, data: seq<Json>, r: DailyRow)
    requires r in TwseTable(fields, data)
    ensures r.market == "TWSE" && r.code != ""
  {
    FilterMapAll(data, (row: Json) => TwseRow(StripAll(fields), row), (d: DailyRow) => d.market == "TWSE" && d.code != "");
  }

  /** Every TWSE row has market "TWSE" and a non-empty code. */
  lemma TwseRowsShape(doc: seq<Field>, r: DailyRow)
    requires r in ParseTwse(doc)
    ensures r.market == "TWSE" && r.code != ""
  {
    match TwseChoice(doc) {
      case Some((names, data)) => TwseTableShape(names, data, r);
      case None =>
    }
  }

  // ---------------------------------------------------------------------------
  // parse_tpex
  // ---------------------------------------------------------------------------

  /** `pick(*names)`: the position of the first alias present, or -1. */
  function Pick(names: seq<string>, aliases: seq<string>): (i: int)
    ensures -1 <= i < |names|
  {
    if aliases == [] then -1
    else match NameIndex(names, aliases[0])
      case Some(i) => i
      case None => Pick(names, aliases[1..])
  }

  /** `pick` answers -1 only when no alias is a column, and otherwise the column of the first alias that is one. */
  lemma {:induction false} PickFirstAlias(names: seq<string>, aliases: seq<string>)
    ensures Pick(names, aliases) == -1 <==> forall a :: a in aliases ==> a !in names
    ensures Pick(names, aliases) >= 0 ==>
              exists k :: 0 <= k < |aliases| && names[Pick(names, aliases)] == aliases[k]
                          && forall a :: a in aliases[..k] ==> a !in names
  {
    if aliases != [] {
      match NameIndex(names, aliases[0]) {
        case Some(i) =>
          assert aliases[0] in aliases && aliases[0] in names;
          assert aliases[..0] == [];
        case None =>
          var rest := Pick(names, aliases[1..]);
          PickFirstAlias(names, aliases[1..]);
          assert aliases == [aliases[0]] + aliases[1..];
          if rest >= 0 {
            var k :| 0 <= k < |aliases[1..]| && names[rest] == aliases[1..][k]
                     && forall a :: a in aliases[1..][..k] ==> a !in names;
            assert names[rest] == aliases[k + 1];
            assert aliases[..k + 1] == [aliases[0]] + aliases[1..][..k];
          }
      }
    }
  }

  /** The column positions `parse_tpex` picks. */
  datatype Columns = Columns(code: int, name: int, close: int, vol: int, tv: int)

  function TpexColumns(names: seq<string>): Columns {
    Columns(Pick(names, ["代號", "證券代號", "股票代號"]),
            Pick(names, ["名稱", "證券名稱", "股票名稱"]),
            Pick(names, ["收盤", "收盤價"]),
            Pick(names, ["成交股數", "成交股數(股)", "成交量"]),
            Pick(names, ["成交金額(元)", "成交金額", "成交值"]))
  }

  function MaxInt(a: int, b: int): int { if a >= b then a else b }

  /** `max_i`: the largest position read; a missing optional column counts as 0. */
  function MaxIndex(c: Columns): int {
    MaxInt(MaxInt(MaxInt(MaxInt(c.code, c.close), MaxInt(c.name, 0)), MaxInt(c.vol, 0)), MaxInt(c.tv, 0))
  }

  /** One row of `parse_tpex`: skipped when not a list, too short, or without a code. */
  function TpexRow(c: Columns, row: Json): (r: Option<DailyRow>)
    requires c.code >= 0 && c.close >= 0
    ensures r.Some? ==> r.value.market == "TWO" && r.value.code != ""
    ensures r.Some? ==> row.JArr? && |row.items| > MaxIndex(c)
  {
    if !row.JArr? || |row.items| <= MaxIndex(c) then None
    else
      var items := row.items;
      var code := CleanCode(Str(items[c.code]));
      var name := if c.name >= 0 then Strip(Str(items[c.name])) else "";
      var close := ToFloat(Str(items[c.close]));
      var vol := if c.vol >= 0 then ToInt(Str(items[c.vol])) else 0;
      var tv := if c.tv >= 0 then ToFloat(Str(items[c.tv])) else 0.0;
      if code == "" then None
      else Some(DailyRow(code, name, "TWO", close, vol as real, tv, 0.0, 0.0, 0.0))
  }

  /** `parse_tpex`: nothing without non-empty `fields` and `aaData` lists and a code and a close column. */
  function ParseTpex(doc: seq<Field>): seq<DailyRow> {
    match (NonEmptyList(Lookup(doc, "fields")), NonEmptyList(Lookup(doc, "aaData")))
    case (Some(fs), Some(rows)) =>
      var c := TpexColumns(FieldNames(fs));
      if c.code < 0 || c.close < 0 then [] else FilterMap(rows, (row: Json) => TpexRow(c, row))
    case _ => []
  }

  /** The loop of `parse_tpex`, appending one row at a time. */
  method ParseTpexRows(c: Columns, rows: seq<Json>) returns (out: seq<DailyRow>)
    requires c.code >= 0 && c.close >= 0
    ensures out == FilterMap(rows, (row: Json) => TpexRow(c, row))
  {
    out := Collect(rows, (row: Json) => TpexRow(c, row));
  }

  /** Every TPEX row has market "TWO" and a non-empty code. */
  lemma TpexRowsShape(doc: seq<Field>, r: DailyRow)
    requires r in ParseTpex(doc)
    ensures r.market == "TWO" && r.code != ""
  {
    match (NonEmptyList(Lookup(doc, "fields")), NonEmptyList(Lookup(doc, "aaData"))) {
      case (Some(fs), Some(rows)) =>
        var c := TpexColumns(FieldNames(fs));
        if c.code >= 0 && c.close >= 0 {
          FilterMapAll(rows, (row: Json) => TpexRow(c, row), (d: DailyRow) => d.market == "TWO" && d.code != "");
        }
      case _ =>
    }
  }

  /** Without a code column among the aliases there are no TPEX rows at all. */
  lemma NoCodeColumnNoRows(doc: seq<Field>, fs: seq<Json>)
    requires NonEmptyList(Lookup(doc, "fields")) == Some(fs)
    requires forall a :: a in ["代號", "證券代號", "股票代號"] ==> a !in FieldNames(fs)
    ensures ParseTpex(doc) == []
  {
    PickFirstAlias(FieldNames(fs), ["代號", "證券代號", "股票代號"]);
  }

  // ---------------------------------------------------------------------------
  // De-duplication by (market, code), keeping the last
  // ---------------------------------------------------------------------------

  function Key(r: DailyRow): (string, string) {
    (r.market, r.code)
  }

  predicate DistinctRowKeys(rows: seq<DailyRow>) {
    forall i, j :: 0 <= i < j < |rows| ==> Key(rows[i]) != Key(rows[j])
  }

  /** No later row has the key of row `k`. */
  predicate LastOfKey(rows: seq<DailyRow>, k: int) {
    0 <= k < |rows| && forall j :: k < j < |rows| ==> Key(rows[j]) != Key(rows[k])
  }

  /** `seen[key] = r`: a key already present keeps its place and takes the new row; a new key goes to the end. */
  function Upsert(seen: seq<DailyRow>, r: DailyRow): seq<DailyRow> {
    if seen == [] then [r]
    else if Key(seen[0]) == Key(r) then [r] + seen[1..]
    else [seen[0]] + Upsert(seen[1..], r)
  }

  /** `list(seen.values())` after the loop over `rows`. */
  function Dedup(rows: seq<DailyRow>): seq<DailyRow> {
    if rows == [] then [] else Upsert(Dedup(rows[..|rows| - 1]), rows[|rows| - 1])
  }

  /** The rows after the first of a key-distinct list are key-distinct and none has the first row's key. */
  lemma TailKeys(seen: seq<DailyRow>)
    requires seen != [] && DistinctRowKeys(seen)
    ensures DistinctRowKeys(seen[1..])
    ensures forall x :: x in seen[1..] ==> Key(x) != Key(seen[0])
  {
    var tail := seen[1..];
    forall i, j | 0 <= i < j < |tail| ensures Key(tail[i]) != Key(tail[j]) {
      assert tail[i] == seen[i + 1] && tail[j] == seen[j + 1];
    }
    forall x | x in tail ensures Key(x) != Key(seen[0]) {
      var j :| 0 <= j < |tail| && tail[j] == x;
      assert seen[j + 1] == x;
    }
  }

  /** Storing a row adds the row and drops only the stored row with its key. */
  lemma {:induction false} UpsertHas(seen: seq<DailyRow>, r: DailyRow)
    requires DistinctRowKeys(seen)
    ensures forall x :: x in Upsert(seen, r) <==> x == r || (x in seen && Key(x) != Key(r))
  {
    if seen != [] {
      var tail := seen[1..];
      assert seen == [seen[0]] + tail;
      TailKeys(seen);
      if Key(seen[0]) != Key(r) {
        UpsertHas(tail, r);
        assert Upsert(seen, r) == [seen[0]] + Upsert(tail, r);
      }
    }
  }

  /** Storing a row whose key differs from `key` in rows whose keys all differ from it leaves no row with that key. */
  lemma UpsertAvoids(seen: seq<DailyRow>, r: DailyRow, key: (string, string))
    requires DistinctRowKeys(seen)
    requires forall x :: x in seen ==> Key(x) != key
    requires Key(r) != key
    ensures forall x :: x in Upsert(seen, r) ==> Key(x) != key
  {
    UpsertHas(seen, r);
  }

  /** Storing a row keeps the keys distinct. */
  lemma {:induction false} UpsertDistinct(seen: seq<DailyRow>, r: DailyRow)
    requires DistinctRowKeys(seen)
    ensures DistinctRowKeys(Upsert(seen, r))
  {
    if seen != [] {
      var out := Upsert(seen, r);
      var tail := seen[1..];
      TailKeys(seen);
      if Key(seen[0]) == Key(r) {
        assert forall i :: 0 <= i < |out| ==> Key(out[i]) == Key(seen[i]);
      } else {
        UpsertDistinct(tail, r);
        UpsertAvoids(tail, r, Key(seen[0]));
        var u := Upsert(tail, r);
        assert out == [seen[0]] + u;
        forall i, j | 0 <= i < j < |out| ensures Key(out[i]) != Key(out[j]) {
          if i == 0 {
            assert out[j] == u[j - 1];
          } else {
            assert out[i] == u[i - 1] && out[j] == u[j - 1];
          }
        }
      }
    }
  }

  /** Storing a row keeps the keys distinct, adds the row and drops only the row it replaces. */
  lemma UpsertMembers(seen: seq<DailyRow>, r: DailyRow)
    requires DistinctRowKeys(seen)
    ensures DistinctRowKeys(Upsert(seen, r))
    ensures forall x :: x in Upsert(seen, r) <==> x == r || (x in seen && Key(x) != Key(r))
  {
    UpsertDistinct(seen, r);
    UpsertHas(seen, r);
  }

  /** A row before the last is the last of its key exactly when it is so without the last row and the last row has another key. */
  lemma LastOfKeyInit(rows: seq<DailyRow>, k: int)
    requires 0 <= k < |rows| - 1
    ensures LastOfKey(rows, k) <==> LastOfKey(rows[..|rows| - 1], k) && Key(rows[k]) != Key(rows[|rows| - 1])
  {
    var init := rows[..|rows| - 1];
    assert forall j :: k < j < |init| ==> init[j] == rows[j];
  }

  /**
   * After the loop the keys are distinct and a row is kept exactly when it is
   * the last row with its (market, code).
   */
  lemma {:induction false} DedupKeepsLast(rows: seq<DailyRow>)
    ensures DistinctRowKeys(Dedup(rows))
    ensures forall x :: x in Dedup(rows) <==> exists k :: LastOfKey(rows, k) && rows[k] == x
  {
    if rows != [] {
      var init := rows[..|rows| - 1];
      var last := rows[|rows| - 1];
      DedupKeepsLast(init);
      UpsertMembers(Dedup(init), last);
      assert Dedup(rows) == Upsert(Dedup(init), last);
      forall x ensures x in Dedup(rows) <==> exists k :: LastOfKey(rows, k) && rows[k] == x {
        if x in Dedup(rows) {
          if x == last {
            assert LastOfKey(rows, |rows| - 1);
          } else {
            var k :| LastOfKey(init, k) && init[k] == x;
            LastOfKeyInit(rows, k);
          }
        }
        if exists k :: LastOfKey(rows, k) && rows[k] == x {
          var k :| LastOfKey(rows, k) && rows[k] == x;
          if k < |init| {
            LastOfKeyInit(rows, k);
          }
        }
      }
    }
  }

  /** Every (market, code) of the input is still there after de-duplication. */
  lemma {:induction false} DedupKeepsEveryKey(rows: seq<DailyRow>, r: DailyRow)
    requires r in rows
    ensures exists y :: y in Dedup(rows) && Key(y) == Key(r)
  {
    var init := rows[..|rows| - 1];
    var last := rows[|rows| - 1];
    DedupKeepsLast(init);
    UpsertMembers(Dedup(init), last);
    if Key(r) == Key(last) {
      assert last in Dedup(rows);
    } else {
      assert rows == init + [last];
      assert r in init;
      DedupKeepsEveryKey(init, r);
      var y :| y in Dedup(init) && Key(y) == Key(r);
      assert y in Dedup(rows);
    }
  }

  /** A test that looks only at the key is passed by no more stored rows than input rows. */
  lemma {:induction false} UpsertCount(seen: seq<DailyRow>, r: DailyRow, p: DailyRow -> bool)
    requires forall x, y :: Key(x) == Key(y) ==> p(x) == p(y)
    ensures |Filter(Upsert(seen, r), p)| <= |Filter(seen, p)| + (if p(r) then 1 else 0)
  {
    if seen == [] {
      assert Upsert(seen, r) == [] + [r];
      FilterSnoc([], r, p);
    } else {
      var tail := seen[1..];
      assert seen == [seen[0]] + tail;
      FilterAppend([seen[0]], tail, p);
      assert Filter([seen[0]], p) == Filter([] + [seen[0]], p);
      FilterSnoc([], seen[0], p);
      if Key(seen[0]) == Key(r) {
        FilterAppend([r], tail, p);
        assert Filter([r], p) == Filter([] + [r], p);
        FilterSnoc([], r, p);
      } else {
        UpsertCount(tail, r, p);
        FilterAppend([seen[0]], Upsert(tail, r), p);
      }
    }
  }

  lemma {:induction false} DedupCount(rows: seq<DailyRow>, p: DailyRow -> bool)
    requires forall x, y :: Key(x) == Key(y) ==> p(x) == p(y)
    ensures |Filter(Dedup(rows), p)| <= |Filter(rows, p)|
  {
    if rows != [] {
      var init := rows[..|rows| - 1];
      var last := rows[|rows| - 1];
      DedupCount(init, p);
      UpsertCount(Dedup(init), last, p);
      assert Dedup(rows) == Upsert(Dedup(init), last);
      assert rows == init + [last];
      FilterSnoc(init, last, p);
    }
  }

  /** The de-duplication loop of `main`. */
  method DedupRows(rows: seq<DailyRow>) returns (merged: seq<DailyRow>)
    ensures merged == Dedup(rows)
  {
    var seen: seq<DailyRow> := [];
    var k := 0;
    while k < |rows|
      invariant 0 <= k <= |rows|
      invariant seen == Dedup(rows[..k])
    {
      assert rows[..k + 1][..k] == rows[..k];
      seen := Upsert(seen, rows[k]);
      k := k + 1;
    }
    assert rows[..k] == rows;
    merged := seen;
  }

  // ---------------------------------------------------------------------------
  // Common stocks and sanity_dynamic
  // ---------------------------------------------------------------------------

  predicate IsCommon(r: DailyRow) {
    IsCommonStockCode(r.code)
  }

  /** The rows whose market, upper-cased, is `m`. */
  function MarketCount(rows: seq<DailyRow>, m: string): nat {
    |Filter(rows, (r: DailyRow) => Upper(r.market) == m)|
  }

  /** `max(int(expected * ratio), floor)`. */
  function AtLeast(expected: int, ratio: real, floor: int): int {
    MaxInt(Trunc(expected as real * ratio), floor)
  }

  /** The first sanity rule a table breaks, in the order `sanity_dynamic` tests them, or `Passed`. */
  datatype Sanity =
    | Passed
    | TooFewTotal(n: int, min: int)
    | TooFewTwse(n: int, min: int)
    | TooFewTwo(n: int, min: int)
    | TooManyBadClose(bad: int, total: int)
    | EmptyCodes(count: int)
    | BadMarkets(count: int)

  function BadCloseCount(rows: seq<DailyRow>): nat {
    |Filter(rows, (r: DailyRow) => r.close <= 0.0)|
  }

  function EmptyCodeCount(rows: seq<DailyRow>): nat {
    |Filter(rows, (r: DailyRow) => Strip(r.code) == "")|
  }

  function BadMarketCount(rows: seq<DailyRow>): nat {
    |Filter(rows, (r: DailyRow) => Upper(r.market) != "TWSE" && Upper(r.market) != "TWO")|
  }

  /** `sanity_dynamic`: `Passed` where the script returns, otherwise the rule whose `RuntimeError` it raises. */
  function SanityDynamic(rows: seq<DailyRow>, expTwse: int, expTwo: int, minRatio: real, minTotalFloor: int): Sanity {
    var n := |rows|;
    var twseN := MarketCount(rows, "TWSE");
    var twoN := MarketCount(rows, "TWO");
    var minTwse := AtLeast(expTwse, minRatio, 200);
    var minTwo := AtLeast(expTwo, minRatio, 50);
    var minTotal := AtLeast(expTwse + expTwo, minRatio, minTotalFloor);
    var badClose := BadCloseCount(rows);
    if n < minTotal then TooFewTotal(n, minTotal)
    else if expTwse > 0 && twseN < minTwse then TooFewTwse(twseN, minTwse)
    else if expTwo > 0 && twoN < minTwo then TooFewTwo(twoN, minTwo)
    else if badClose as real / MaxInt(n, 1) as real > 0.10 then TooManyBadClose(badClose, n)
    else if EmptyCodeCount(rows) > 0 then EmptyCodes(EmptyCodeCount(rows))
    else if BadMarketCount(rows) > 0 then BadMarkets(BadMarketCount(rows))
    else Passed
  }

  /** A share of at most 10% in `bad / max(n, 1)`. */
  lemma CloseShare(bad: nat, n: nat)
    requires bad <= n
    requires !(bad as real / MaxInt(n, 1) as real > 0.10)
    ensures 10 * bad <= n
  {
    if n > 0 {
      var q := bad as real / n as real;
      assert q * n as real == bad as real;
      assert q <= 0.10;
      ScaleLe(q, 0.10, n as real);
      assert bad as real <= 0.10 * n as real;
    }
  }

  lemma ScaleLe(a: real, b: real, c: real)
    requires a <= b && c >= 0.0
    ensures a * c <= b * c
  {
  }

  /**
   * A table passes only with at least the floor of rows in all, at most one in
   * ten closes non-positive, every code non-blank, every market TWSE or TWO,
   * and, for each exchange with an expected universe, at least its floor of
   * rows (200 TWSE, 50 TPEX).
   */
  lemma PassedMeans(rows: seq<DailyRow>, expTwse: int, expTwo: int, minRatio: real, minTotalFloor: int)
    requires SanityDynamic(rows, expTwse, expTwo, minRatio, minTotalFloor).Passed?
    ensures |rows| >= minTotalFloor && 10 * BadCloseCount(rows) <= |rows|
    ensures EmptyCodeCount(rows) == 0 && BadMarketCount(rows) == 0
    ensures expTwse > 0 ==> MarketCount(rows, "TWSE") >= 200
    ensures expTwo > 0 ==> MarketCount(rows, "TWO") >= 50
  {
    CloseShare(BadCloseCount(rows), |rows|);
  }

  /** The blank-code and market rules fire only when some row breaks them. */
  lemma LateRulesNeedWitness(rows: seq<DailyRow>, expTwse: int, expTwo: int, minRatio: real, minTotalFloor: int)
    ensures SanityDynamic(rows, expTwse, expTwo, minRatio, minTotalFloor).EmptyCodes? ==> EmptyCodeCount(rows) > 0
    ensures SanityDynamic(rows, expTwse, expTwo, minRatio, minTotalFloor).BadMarkets? ==> BadMarketCount(rows) > 0
  {
  }

  /** The common-stock rows of a parse: the `expected` universe of the sanity check. */
  function Expected(rows: seq<DailyRow>): nat {
    |Filter(rows, IsCommon)|
  }

  /** `merged` as `main` hands it to the sanity check: both exchanges, de-duplicated, common stocks only. */
  function Merge(twseRows: seq<DailyRow>, tpexRows: seq<DailyRow>): seq<DailyRow> {
    Filter(Dedup(twseRows + tpexRows), IsCommon)
  }

  /** The sanity check `main` runs, with ratio 0.70 and floor 800. */
  function CheckMerged(twseRows: seq<DailyRow>, tpexRows: seq<DailyRow>): Sanity {
    SanityDynamic(Merge(twseRows, tpexRows), Expected(twseRows), Expected(tpexRows), 0.70, 800)
  }

  /** Filtering keeps distinct keys distinct. */
  lemma {:induction false} FilterKeepsDistinct(rows: seq<DailyRow>, p: DailyRow -> bool)
    requires DistinctRowKeys(rows)
    ensures DistinctRowKeys(Filter(rows, p))
  {
    if rows != [] {
      var init := rows[..|rows| - 1];
      var x := rows[|rows| - 1];
      assert DistinctRowKeys(init);
      FilterKeepsDistinct(init, p);
      if p(x) {
        var f := Filter(init, p);
        forall y | y in f ensures Key(y) != Key(x) {
          FilterMembers(init, p, y);
          var j :| 0 <= j < |init| && init[j] == y;
          assert rows[j] == y;
        }
        var out := f + [x];
        forall i, j | 0 <= i < j < |out| ensures Key(out[i]) != Key(out[j]) {
          if j == |f| {
            assert out[i] in f;
          } else {
            assert out[i] == f[i] && out[j] == f[j];
          }
        }
      }
    }
  }

  /** What the parsers promise about their rows: the exchange's market and a non-empty code. */
  predicate Parsed(twseRows: seq<DailyRow>, tpexRows: seq<DailyRow>) {
    (forall r :: r in twseRows ==> r.market == "TWSE" && r.code != "")
    && (forall r :: r in tpexRows ==> r.market == "TWO" && r.code != "")
  }

  lemma ParsersAgree(twseDoc: seq<Field>, tpexDoc: seq<Field>)
    ensures Parsed(ParseTwse(twseDoc), ParseTpex(tpexDoc))
  {
    forall r | r in ParseTwse(twseDoc) ensures r.market == "TWSE" && r.code != "" {
      TwseRowsShape(twseDoc, r);
    }
    forall r | r in ParseTpex(tpexDoc) ensures r.market == "TWO" && r.code != "" {
      TpexRowsShape(tpexDoc, r);
    }
  }

  /** Every merged row is a common stock of one of the two exchanges, and no (market, code) appears twice. */
  lemma MergedRowsClean(twseRows: seq<DailyRow>, tpexRows: seq<DailyRow>)
    requires Parsed(twseRows, tpexRows)
    ensures DistinctRowKeys(Merge(twseRows, tpexRows))
    ensures forall r :: r in Merge(twseRows, tpexRows) ==> IsCommon(r) && (r.market == "TWSE" || r.market == "TWO")
  {
    var rows := twseRows + tpexRows;
    DedupKeepsLast(rows);
    FilterKeepsDistinct(Dedup(rows), IsCommon);
    forall r | r in Merge(twseRows, tpexRows)
      ensures IsCommon(r) && (r.market == "TWSE" || r.market == "TWO")
    {
      FilterMembers(Dedup(rows), IsCommon, r);
      var k :| LastOfKey(rows, k) && rows[k] == r;
      assert r in rows;
    }
  }

  /** Common-stock codes are never blank. */
  lemma CommonCodesNotBlank(m: seq<DailyRow>)
    requires forall r :: r in m ==> IsCommon(r)
    ensures EmptyCodeCount(m) == 0
  {
    forall i | 0 <= i < |m| ensures Strip(m[i].code) != "" {
      assert m[i] in m;
    }
    FilterNone(m, (r: DailyRow) => Strip(r.code) == "");
  }

  /** The two exchanges' markets are the ones the check allows. */
  lemma ExchangeMarketsAllowed(m: seq<DailyRow>)
    requires forall r :: r in m ==> r.market == "TWSE" || r.market == "TWO"
    ensures BadMarketCount(m) == 0
  {
    UpperKeeps("TWSE");
    UpperKeeps("TWO");
    forall i | 0 <= i < |m| ensures Upper(m[i].market) == "TWSE" || Upper(m[i].market) == "TWO" {
      assert m[i] in m;
    }
    FilterNone(m, (r: DailyRow) => Upper(r.market) != "TWSE" && Upper(r.market) != "TWO");
  }

  /** Text without lower-case letters is its own upper case. */
  lemma UpperKeeps(s: string)
    requires forall i :: 0 <= i < |s| ==> !('a' <= s[i] <= 'z')
    ensures Upper(s) == s
  {
  }

  /** The empty-code and market rules can never fire on what `main` checks: the filter and the parsers rule them out. */
  lemma MergedNeverBadCodeOrMarket(twseRows: seq<DailyRow>, tpexRows: seq<DailyRow>)
    requires Parsed(twseRows, tpexRows)
    ensures var s := CheckMerged(twseRows, tpexRows); !s.EmptyCodes? && !s.BadMarkets?
  {
    MergedRowsClean(twseRows, tpexRows);
    CommonCodesNotBlank(Merge(twseRows, tpexRows));
    ExchangeMarketsAllowed(Merge(twseRows, tpexRows));
    LateRulesNeedWitness(Merge(twseRows, tpexRows), Expected(twseRows), Expected(tpexRows), 0.70, 800);
  }

  /** Fewer than 800 common stocks parsed in all means the total rule fails, whatever the ratio allows. */
  lemma FewCommonStocksFail(twseRows: seq<DailyRow>, tpexRows: seq<DailyRow>)
    requires Expected(twseRows) + Expected(tpexRows) < 800
    ensures CheckMerged(twseRows, tpexRows).TooFewTotal?
  {
    DedupCount(twseRows + tpexRows, IsCommon);
    FilterAppend(twseRows, tpexRows, IsCommon);
  }

  /** One exchange's merged rows are no more than its parsed common stocks. */
  lemma MergedMarketCount(twseRows: seq<DailyRow>, tpexRows: seq<DailyRow>, m: string, mine: seq<DailyRow>, other: seq<DailyRow>)
    requires (m == "TWSE" && mine == twseRows && other == tpexRows) || (m == "TWO" && mine == tpexRows && other == twseRows)
    requires forall i :: 0 <= i < |mine| ==> Upper(mine[i].market) == m
    requires forall i :: 0 <= i < |other| ==> Upper(other[i].market) != m
    ensures MarketCount(Merge(twseRows, tpexRows), m) <= Expected(mine)
  {
    var rows := twseRows + tpexRows;
    var inM := (r: DailyRow) => Upper(r.market) == m;
    var both := (r: DailyRow) => IsCommon(r) && inM(r);
    FilterFilter(Dedup(rows), IsCommon, inM, both);
    DedupCount(rows, both);
    FilterAppend(twseRows, tpexRows, both);
    FilterNone(other, both);
    FilterAgree(mine, both, IsCommon);
  }

  /**
   * An exchange with some, but fewer than its floor of, common stocks (200 for
   * TWSE, 50 for TPEX) can never pass: the merged count cannot exceed the
   * parsed one.
   */
  lemma SmallExchangeNeverPasses(twseRows: seq<DailyRow>, tpexRows: seq<DailyRow>)
    requires Parsed(twseRows, tpexRows)
    requires 0 < Expected(twseRows) < 200 || 0 < Expected(tpexRows) < 50
    ensures !CheckMerged(twseRows, tpexRows).Passed?
  {
    UpperKeeps("TWSE");
    UpperKeeps("TWO");
    assert forall i :: 0 <= i < |twseRows| ==> twseRows[i] in twseRows;
    assert forall i :: 0 <= i < |tpexRows| ==> tpexRows[i] in tpexRows;
    MergedMarketCount(twseRows, tpexRows, "TWSE", twseRows, tpexRows);
    MergedMarketCount(twseRows, tpexRows, "TWO", tpexRows, twseRows);
    if CheckMerged(twseRows, tpexRows).Passed? {
      PassedMeans(Merge(twseRows, tpexRows), Expected(twseRows), Expected(tpexRows), 0.70, 800);
    }
  }

  // ---------------------------------------------------------------------------
  // _find_latest_file
  // ---------------------------------------------------------------------------

  /** `glob(f"{prefix}_*.json")`: the prefix and `_` at the front, `.json` at the end, the two not overlapping. */
  predicate MatchesGlob(name: string, prefix: string) {
    |name| >= |prefix| + 6 && StartsWith(name, prefix + "_") && EndsWith(name, ".json")
  }

  /** `f` is the last of the matching names in sorted order. */
  predicate IsLatest(names: set<string>, prefix: string, f: string) {
    f in names && MatchesGlob(f, prefix) && forall g :: g in names && MatchesGlob(g, prefix) ==> LexLe(g, f)
  }

  /** A non-empty set of names has a greatest one. */
  lemma {:induction false} GreatestExists(m: set<string>)
    requires m != {}
    ensures exists f :: f in m && forall g :: g in m ==> LexLe(g, f)
    decreases m
  {
    var x :| x in m;
    var rest := m - {x};
    LexLeTotal(x, x);
    if rest == {} {
      assert m == {x} by {
        forall g | g in m ensures g == x {
          assert g == x || g in rest;
        }
      }
    } else {
      GreatestExists(rest);
      var f :| f in rest && forall g :: g in rest ==> LexLe(g, f);
      LexLeTotal(x, f);
      if LexLe(x, f) {
        assert f in m && forall g :: g in m ==> LexLe(g, f);
      } else {
        forall g | g in m ensures LexLe(g, x) {
          if g != x {
            assert g in rest;
            LexLeTrans(g, f, x);
          }
        }
      }
    }
  }

  /** Two latest names are the same name. */
  lemma LatestUnique(names: set<string>, prefix: string)
    ensures forall f, g :: IsLatest(names, prefix, f) && IsLatest(names, prefix, g) ==> f == g
  {
    forall f, g | IsLatest(names, prefix, f) && IsLatest(names, prefix, g) ensures f == g {
      LexLeAntisym(f, g);
    }
  }

  /** Some name matches, so there is a latest one. */
  lemma LatestExists(names: set<string>, prefix: string)
    requires exists g :: g in names && MatchesGlob(g, prefix)
    ensures exists f :: IsLatest(names, prefix, f)
  {
    var m := set g | g in names && MatchesGlob(g, prefix);
    var w :| w in names && MatchesGlob(w, prefix);
    assert w in m;
    GreatestExists(m);
    var f :| f in m && forall g :: g in m ==> LexLe(g, f);
    assert IsLatest(names, prefix, f);
  }

  /** `_find_latest_file`: `None` where it raises `FileNotFoundError`, otherwise the last match in sorted order. */
  function Latest(names: set<string>, prefix: string): (r: Option<string>)
    ensures r.None? <==> forall g :: g in names ==> !MatchesGlob(g, prefix)
    ensures r.Some? ==> IsLatest(names, prefix, r.value)
  {
    if forall g :: g in names ==> !MatchesGlob(g, prefix) then None
    else
      LatestExists(names, prefix);
      LatestUnique(names, prefix);
      var f :| IsLatest(names, prefix, f);
      Some(f)
  }

  // ---------------------------------------------------------------------------
  // write_daily
  // ---------------------------------------------------------------------------

  const DailyColumns: seq<string> :=
    ["code", "name", "market", "close", "volume", "trade_value", "turnover", "short_used_ratio", "margin_used_ratio"]

  /** The characters that make the csv module quote a field (delimiter, quote character, line ends). */
  predicate Special(c: char) {
    c == ',' || c == '"' || c == '\r' || c == '\n'
  }

  /** Each quote character doubled. */
  function Escape(s: string): string {
    if s == [] then [] else (if s[0] == '"' then "\"\"" else [s[0]]) + Escape(s[1..])
  }

  /** A field as the csv module writes it with minimal quoting. */
  function CsvField(s: string): string {
    if exists i :: 0 <= i < |s| && Special(s[i]) then "\"" + Escape(s) + "\"" else s
  }

  /** A record: fields joined by commas, ended by the csv module's default `\r\n`. */
  function CsvLine(fields: seq<string>): string {
    Join(seq(|fields|, i requires 0 <= i < |fields| => CsvField(fields[i])), ",") + "\r\n"
  }

  /** The nine cells of a row in column order; numbers are written by `fmt`, Python's `str` of a float. */
  function RowFields(r: DailyRow, fmt: real -> string): seq<string> {
    [r.code, r.name, r.market, fmt(r.close), fmt(r.volume), fmt(r.tradeValue),
     fmt(r.turnover), fmt(r.shortUsedRatio), fmt(r.marginUsedRatio)]
  }

  function RowLine(fmt: real -> string): DailyRow -> string {
    (r: DailyRow) => CsvLine(RowFields(r, fmt))
  }

  /** The text of daily_input.csv: the header, then one record per row. */
  function DailyCsv(rows: seq<DailyRow>, fmt: real -> string): string {
    CsvLine(DailyColumns) + FlatMap(rows, RowLine(fmt))
  }

  /** Reading a field back: quotes around it removed and doubled quotes undone. */
  function Unescape(t: string): string
    decreases |t|
  {
    if t == [] then []
    else if |t| >= 2 && t[0] == '"' && t[1] == '"' then "\"" + Unescape(t[2..])
    else [t[0]] + Unescape(t[1..])
  }

  function Unquote(t: string): string {
    if |t| >= 2 && t[0] == '"' && t[|t| - 1] == '"' then Unescape(t[1..|t| - 1]) else t
  }

  lemma {:induction false} EscapeRoundTrip(s: string)
    ensures Unescape(Escape(s)) == s
  {
    if s != [] {
      EscapeRoundTrip(s[1..]);
      var t := Escape(s);
      if s[0] == '"' {
        assert t == "\"\"" + Escape(s[1..]);
        assert t[2..] == Escape(s[1..]);
      } else {
        assert t == [s[0]] + Escape(s[1..]);
        assert t[1..] == Escape(s[1..]);
      }
      assert s == [s[0]] + s[1..];
    }
  }

  /** Every field the writer produces reads back as the original text. */
  lemma CsvFieldRoundTrip(s: string)
    ensures Unquote(CsvField(s)) == s
  {
    if exists i :: 0 <= i < |s| && Special(s[i]) {
      var t := "\"" + Escape(s) + "\"";
      assert t[1..|t| - 1] == Escape(s);
      EscapeRoundTrip(s);
    } else if |s| >= 2 {
      assert !Special(s[0]);
    }
  }

  /** The loop of `write_daily`: the header, then `writerow` for each row. */
  method WriteDaily(rows: seq<DailyRow>, fmt: real -> string) returns (text: string)
    ensures text == DailyCsv(rows, fmt)
  {
    var body := "";
    var k := 0;
    while k < |rows|
      invariant 0 <= k <= |rows|
      invariant body == FlatMap(rows[..k], RowLine(fmt))
    {
      assert rows[..k + 1] == rows[..k] + [rows[k]];
      FlatMapSnoc(rows[..k], rows[k], RowLine(fmt));
      body := body + CsvLine(RowFields(rows[k], fmt));
      k := k + 1;
    }
    assert rows[..k] == rows;
    text := CsvLine(DailyColumns) + body;
  }

  // ---------------------------------------------------------------------------
  // main
  // ---------------------------------------------------------------------------

  const TwsePrefix := "twse_MI_INDEX"
  const TpexPrefix := "tpex_stk_quote"

  /** Why `main` stops with an uncaught exception (exit status 1). */
  datatype Failure =
    | NoInbound(prefix: string)     // FileNotFoundError from `_find_latest_file`
    | BadJson(file: string)         // `json.loads` refuses the text
    | NotAnObject(file: string)     // the payload has no `.get`
    | BadRow(file: string)          // TypeError or KeyError from `g` on a TWSE data row
    | Insane(check: Sanity)         // RuntimeError from `sanity_dynamic`

  datatype Prepared = Failed(why: Failure) | Ready(rows: seq<DailyRow>)

  /** What `main` makes of the inbound files, in the order it does the work; `parse` is `json.loads`. */
  function Prepare(inbound: map<string, string>, parse: string -> Option<Json>): Prepared {
    match (Latest(inbound.Keys, TwsePrefix), Latest(inbound.Keys, TpexPrefix))
    case (None, _) => Failed(NoInbound(TwsePrefix))
    case (_, None) => Failed(NoInbound(TpexPrefix))
    case (Some(tw), Some(tp)) =>
      match (parse(inbound[tw]), parse(inbound[tp]))
      case (None, _) => Failed(BadJson(tw))
      case (_, None) => Failed(BadJson(tp))
      case (Some(a), Some(b)) =>
        if !a.JObj? then Failed(NotAnObject(tw))
        else if TwseRaises(a.fields) then Failed(BadRow(tw))
        else if !b.JObj? then Failed(NotAnObject(tp))
        else Verdict(ParseTwse(a.fields), ParseTpex(b.fields))
  }

  /** The merged rows when they pass `sanity_dynamic`, else the first rule they break. */
  function Verdict(twse: seq<DailyRow>, tpex: seq<DailyRow>): Prepared {
    var s := CheckMerged(twse, tpex);
    if s.Passed? then Ready(Merge(twse, tpex)) else Failed(Insane(s))
  }

  /** The TWSE rows of the latest payload, when it is a JSON object. */
  function TwseRowsOf(inbound: map<string, string>, parse: string -> Option<Json>): seq<DailyRow> {
    match Latest(inbound.Keys, TwsePrefix)
    case Some(tw) =>
      (match parse(inbound[tw])
       case Some(JObj(fs)) => ParseTwse(fs)
       case _ => [])
    case None => []
  }

  /** The TPEX rows of the latest payload, when it is a JSON object. */
  function TpexRowsOf(inbound: map<string, string>, parse: string -> Option<Json>): seq<DailyRow> {
    match Latest(inbound.Keys, TpexPrefix)
    case Some(tp) =>
      (match parse(inbound[tp])
       case Some(JObj(fs)) => ParseTpex(fs)
       case _ => [])
    case None => []
  }

  /** `daily_input_{stamp}.csv`, the audit snapshot's name. */
  function SnapshotName(stamp: string): string {
    "daily_input_" + stamp + ".csv"
  }

  /**
   * The three places `main` touches: data/inbound (read), data/prepared (the
   * snapshot) and data/daily_input.csv, each directory as name to text.
   */
  class DataDir {
    var inbound: map<string, string>
    var prepared: map<string, string>
    var daily: Option<string>

    constructor (inbound0: map<string, string>, prepared0: map<string, string>, daily0: Option<string>)
      ensures inbound == inbound0 && prepared == prepared0 && daily == daily0
    {
      inbound := inbound0;
      prepared := prepared0;
      daily := daily0;
    }

    /**
     * `main`: on success both files get the same CSV text and the status is 0;
     * any failure leaves them as they were and the status is 1. `stamp` is
     * the clock's `%Y%m%d_%H%M%S`.
     */
    method Invoke(parse: string -> Option<Json>, stamp: string, fmt: real -> string) returns (exit: int)
      modifies this
      ensures inbound == old(inbound)
      ensures var p := Prepare(old(inbound), parse);
              && exit == (if p.Ready? then 0 else 1)
              && prepared == (if p.Ready? then old(prepared)[SnapshotName(stamp) := DailyCsv(p.rows, fmt)] else old(prepared))
              && daily == (if p.Ready? then Some(DailyCsv(p.rows, fmt)) else old(daily))
    {
      var p := Run(inbound, parse);
      if p.Failed? {
        return 1;
      }
      var text := WriteDaily(p.rows, fmt);
      prepared := prepared[SnapshotName(stamp) := text];
      daily := Some(text);
      exit := 0;
    }
  }

  /** The body of `main` up to the writes: find, load, parse, de-duplicate, filter, check. */
  method Run(inbound: map<string, string>, parse: string -> Option<Json>) returns (p: Prepared)
    ensures p == Prepare(inbound, parse)
  {
    var tw := Latest(inbound.Keys, TwsePrefix);
    if tw.None? {
      return Failed(NoInbound(TwsePrefix));
    }
    var tp := Latest(inbound.Keys, TpexPrefix);
    if tp.None? {
      return Failed(NoInbound(TpexPrefix));
    }
    var a := parse(inbound[tw.value]);
    var b := parse(inbound[tp.value]);
    if a.None? {
      return Failed(BadJson(tw.value));
    }
    if b.None? {
      return Failed(BadJson(tp.value));
    }
    if !a.value.JObj? {
      return Failed(NotAnObject(tw.value));
    }
    if TwseRaises(a.value.fields) {
      return Failed(BadRow(tw.value));
    }
    if !b.value.JObj? {
      return Failed(NotAnObject(tp.value));
    }
    var twseRows := ParseTwse(a.value.fields);
    var tpexRows := ParseTpex(b.value.fields);
    var merged := DedupRows(twseRows + tpexRows);
    merged := Filter(merged, IsCommon);
    assert merged == Merge(twseRows, tpexRows);
    var s := SanityDynamic(merged, Expected(twseRows), Expected(tpexRows), 0.70, 800);
    assert s == CheckMerged(twseRows, tpexRows);
    if !s.Passed? {
      return Failed(Insane(s));
    }
    return Ready(merged);
  }

  /**
   * Once both payloads are found and parsed, the run stops on the TWSE file
   * exactly when that payload is an object whose chosen table holds a row `g`
   * cannot read; the TPEX payload is not looked at before that.
   */
  lemma BadRowFails(inbound: map<string, string>, parse: string -> Option<Json>)
    requires Latest(inbound.Keys, TwsePrefix).Some? && Latest(inbound.Keys, TpexPrefix).Some?
    requires parse(inbound[Latest(inbound.Keys, TwsePrefix).value]).Some?
    requires parse(inbound[Latest(inbound.Keys, TpexPrefix).value]).Some?
    ensures var tw := Latest(inbound.Keys, TwsePrefix).value;
            var a := parse(inbound[tw]).value;
            Prepare(inbound, parse) == Failed(BadRow(tw)) <==> a.JObj? && TwseRaises(a.fields)
  {
  }

  /** A successful run keeps the merged rows of the latest payloads, and they passed the check. */
  lemma PrepareReady(inbound: map<string, string>, parse: string -> Option<Json>)
    requires Prepare(inbound, parse).Ready?
    ensures Prepare(inbound, parse).rows == Merge(TwseRowsOf(inbound, parse), TpexRowsOf(inbound, parse))
    ensures CheckMerged(TwseRowsOf(inbound, parse), TpexRowsOf(inbound, parse)).Passed?
  {
    var tw := Latest(inbound.Keys, TwsePrefix).value;
    var tp := Latest(inbound.Keys, TpexPrefix).value;
    var a := parse(inbound[tw]).value;
    var b := parse(inbound[tp]).value;
    assert Prepare(inbound, parse) == Verdict(ParseTwse(a.fields), ParseTpex(b.fields));
  }

  /** The rows `main` reads have the parsers' shape. */
  lemma RowsOfParsed(inbound: map<string, string>, parse: string -> Option<Json>)
    ensures Parsed(TwseRowsOf(inbound, parse), TpexRowsOf(inbound, parse))
  {
    forall r | r in TwseRowsOf(inbound, parse) ensures r.market == "TWSE" && r.code != "" {
      var tw := Latest(inbound.Keys, TwsePrefix).value;
      TwseRowsShape(parse(inbound[tw]).value.fields, r);
    }
    forall r | r in TpexRowsOf(inbound, parse) ensures r.market == "TWO" && r.code != "" {
      var tp := Latest(inbound.Keys, TpexPrefix).value;
      TpexRowsShape(parse(inbound[tp]).value.fields, r);
    }
  }

  /**
   * A successful run writes rows that are common stocks of the two exchanges,
   * one per (market, code), at least 800 of them, at most one in ten with a
   * non-positive close.
   */
  lemma ReadyRowsClean(inbound: map<string, string>, parse: string -> Option<Json>)
    requires Prepare(inbound, parse).Ready?
    ensures var rows := Prepare(inbound, parse).rows;
            && DistinctRowKeys(rows)
            && (forall r :: r in rows ==> IsCommon(r) && (r.market == "TWSE" || r.market == "TWO"))
            && |rows| >= 800 && 10 * BadCloseCount(rows) <= |rows|
  {
    var tw := TwseRowsOf(inbound, parse);
    var tp := TpexRowsOf(inbound, parse);
    PrepareReady(inbound, parse);
    RowsOfParsed(inbound, parse);
    MergedRowsClean(tw, tp);
    PassedMeans(Merge(tw, tp), Expected(tw), Expected(tp), 0.70, 800);
  }
}
