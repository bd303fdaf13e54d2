/**
 * app/backtest/strategy_with_risk.py: replays the prepared daily snapshots
 * (one YYYYMMDD folder per day with daily_out.csv and daily_top20.csv) pair
 * by pair. Each pair of consecutive days buys the first `topN` codes of the
 * earlier day's top-20 list at its close and sells at the next day's close,
 * under three exposure rules: always in, in only when market breadth reaches
 * `risk_on`, and in proportionally to breadth.
 *
 * This module keeps the bookkeeping: which days are listed, the breadth, the
 * chosen codes, the price maps, how each code is accounted for, the exposures
 * and the traded-day counters. The CSV reader is the parameter `read`.
 */
module Backtest {
  import opened Wrappers
  import opened Text
  import opened Seqs
  import opened Sorting

  /** A CSV row as `csv.DictReader` gives it. */
  type Row = map<string, string>

  /** `(r.get(k, "") or "").strip()`. */
  function Field(r: Row, k: string): string {
    Strip(if k in r then r[k] else "")
  }

  // ---------------------------------------------------------------------------
  // _list_days
  // ---------------------------------------------------------------------------

  /** One entry of the snapshot root: its name, whether it is a directory, and the names inside it. */
  datatype Entry = Entry(name: string, isDir: bool, files: set<string>)

  /** An eight-digit directory holding both daily files. */
  predicate IsDay(e: Entry) {
    e.isDir && AllDigits(e.name) && |e.name| == 8 && "daily_out.csv" in e.files && "daily_top20.csv" in e.files
  }

  function DayName(e: Entry): Option<string> {
    if IsDay(e) then Some(e.name) else None
  }

  /** Python's `<` on strings, as a sort key. */
  function StrLe(): (string, string) -> bool {
    (a: string, b: string) => LexLe(a, b)
  }

  lemma StrLePreorder()
    ensures TotalPreorder(StrLe())
  {
    forall a: string, b: string ensures LexLe(a, b) || LexLe(b, a) {
      LexLeTotal(a, b);
    }
    forall a: string, b: string, c: string | LexLe(a, b) && LexLe(b, c) ensures LexLe(a, c) {
      LexLeTrans(a, b, c);
    }
  }

  /** The listed days: none without a root, otherwise the day folders' names sorted. */
  function Days(rootExists: bool, entries: seq<Entry>): seq<string> {
    if !rootExists then [] else SortBy(FilterMap(entries, DayName), StrLe())
  }

  /** `_list_days`: the day folders collected in listing order, then sorted. */
  method ListDays(rootExists: bool, entries: seq<Entry>) returns (days: seq<string>)
    ensures days == Days(rootExists, entries)
  {
    if !rootExists {
      return [];
    }
    var found := Collect(entries, DayName);
    days := SortBy(found, StrLe());
  }

  /** The days come sorted, and they are exactly the eight-digit folders holding both files. */
  lemma DaysSpec(rootExists: bool, entries: seq<Entry>)
    ensures SortedBy(Days(rootExists, entries), StrLe())
    ensures forall d :: d in Days(rootExists, entries) <==>
              rootExists && exists i :: 0 <= i < |entries| && IsDay(entries[i]) && entries[i].name == d
    ensures forall d :: d in Days(rootExists, entries) ==> |d| == 8 && AllDigits(d)
  {
    if rootExists {
      var found := FilterMap(entries, DayName);
      StrLePreorder();
      SortBySorted(found, StrLe());
      SortByPermutation(found, StrLe());
      forall d ensures d in Days(rootExists, entries) <==> d in found {
        assert d in Days(rootExists, entries) <==> d in multiset(Days(rootExists, entries));
        assert d in found <==> d in multiset(found);
      }
      forall d ensures d in found <==> exists i :: 0 <= i < |entries| && IsDay(entries[i]) && entries[i].name == d {
        FilterMapMembers(entries, DayName, d);
      }
    }
  }

  // ---------------------------------------------------------------------------
  // _breadth_ratio
  // ---------------------------------------------------------------------------

  const Truthy: seq<string> := ["1", "TRUE", "True", "true", "Y", "y"]

  /** A row with a non-blank `light_decision`. */
  predicate Voted(r: Row) {
    Field(r, "light_decision") != ""
  }

  /** A row whose `light_decision` is one of the truthy spellings. */
  predicate Positive(r: Row) {
    Field(r, "light_decision") in Truthy
  }

  /** The share of voting rows that are positive; 0 when no row votes. */
  function Breadth(rows: seq<Row>): real {
    var n := |Filter(rows, Voted)|;
    if n == 0 then 0.0 else |Filter(rows, Positive)| as real / n as real
  }

  /** `_breadth_ratio`: one pass counting voting and positive rows. */
  method BreadthRatio(rows: seq<Row>) returns (br: real)
    ensures br == Breadth(rows)
  {
    if rows == [] {
      return 0.0;
    }
    var pos, n := 0, 0;
    var i := 0;
    while i < |rows|
      invariant 0 <= i <= |rows|
      invariant n == |Filter(rows[..i], Voted)| && pos == |Filter(rows[..i], Positive)|
    {
      BreadthStep(rows, i);
      var v := Field(rows[i], "light_decision");
      if v != "" {
        n := n + 1;
        if v in Truthy {
          pos := pos + 1;
        }
      }
      i := i + 1;
    }
    assert rows[..i] == rows;
    if n == 0 {
      return 0.0;
    }
    br := pos as real / n as real;
  }

  lemma BreadthStep(rows: seq<Row>, i: nat)
    requires i < |rows|
    ensures |Filter(rows[..i + 1], Voted)| == |Filter(rows[..i], Voted)| + (if Voted(rows[i]) then 1 else 0)
    ensures |Filter(rows[..i + 1], Positive)| == |Filter(rows[..i], Positive)| + (if Positive(rows[i]) then 1 else 0)
  {
    assert rows[..i + 1] == rows[..i] + [rows[i]];
    FilterSnoc(rows[..i], rows[i], Voted);
    FilterSnoc(rows[..i], rows[i], Positive);
  }

  /** Breadth is a fraction: in [0, 1], and 0 when no row votes. */
  lemma BreadthBounds(rows: seq<Row>)
    ensures 0.0 <= Breadth(rows) <= 1.0
    ensures Filter(rows, Voted) == [] ==> Breadth(rows) == 0.0
  {
    forall i | 0 <= i < |rows| && Positive(rows[i]) ensures Voted(rows[i]) {
      assert Field(rows[i], "light_decision") != "";
    }
    FilterLenMono(rows, Positive, Voted);
    var n := |Filter(rows, Voted)|;
    if n > 0 {
      FractionAtMostOne(|Filter(rows, Positive)|, n);
    }
  }

  lemma FractionAtMostOne(p: nat, n: nat)
    requires p <= n && n > 0
    ensures 0.0 <= p as real / n as real <= 1.0
  {
  }

  // ---------------------------------------------------------------------------
  // _topN_codes
  // ---------------------------------------------------------------------------

  /** A row's non-blank code. */
  function CodeOf(r: Row): Option<string> {
    var c := Field(r, "code");
    if c != "" then Some(c) else None
  }

  /** The non-blank codes of the top-20 list, in order. */
  function Codes(rows: seq<Row>): seq<string> {
    FilterMap(rows, CodeOf)
  }

  /**
   * The chosen codes. The loop checks its bound after every row, blank or
   * not, so a bound below 1 stops after the first row.
   */
  function TopN(rows: seq<Row>, topN: int): seq<string> {
    if topN >= 1 then (if |Codes(rows)| <= topN then Codes(rows) else Codes(rows)[..topN])
    else if rows == [] then []
    else Codes(rows[..1])
  }

  /** `_topN_codes`: append non-blank codes until there are `topN` of them. */
  method TopNCodes(rows: seq<Row>, topN: int) returns (codes: seq<string>)
    ensures codes == TopN(rows, topN)
  {
    codes := [];
    var i := 0;
    while i < |rows|
      invariant 0 <= i <= |rows|
      invariant codes == Codes(rows[..i])
      invariant i > 0 ==> |codes| < topN
    {
      FilterMapTake(rows, i, CodeOf);
      var c := Field(rows[i], "code");
      if c != "" {
        codes := codes + [c];
      }
      if |codes| >= topN {
        TopNAt(rows, topN, i);
        return;
      }
      i := i + 1;
    }
    assert rows[..i] == rows;
  }

  /** Stopping after row `i` with the bound reached gives the specified codes. */
  lemma TopNAt(rows: seq<Row>, topN: int, i: nat)
    requires i < |rows| && |Codes(rows[..i + 1])| >= topN
    requires i > 0 ==> |Codes(rows[..i])| < topN
    requires topN >= 1 ==> |Codes(rows[..i + 1])| <= |Codes(rows[..i])| + 1
    ensures Codes(rows[..i + 1]) == TopN(rows, topN)
  {
    if topN >= 1 {
      var pre := rows[..i + 1];
      assert rows == pre + rows[i + 1..];
      FilterMapAppend(pre, rows[i + 1..], CodeOf);
      if i == 0 {
        assert |Codes(pre)| <= 1;
      }
      assert |Codes(pre)| == topN;
      assert Codes(rows)[..topN] == Codes(pre);
    }
  }

  /** The chosen codes are non-blank, in list order, and at most `topN` (at most one when `topN` < 1). */
  lemma TopNSpec(rows: seq<Row>, topN: int)
    ensures topN >= 1 ==> |TopN(rows, topN)| <= topN
    ensures topN < 1 ==> |TopN(rows, topN)| <= 1
    ensures TopN(rows, topN) <= Codes(rows)
    ensures forall c :: c in TopN(rows, topN) ==> c != "" && Strip(c) == c
  {
    if topN < 1 && rows != [] {
      assert rows == rows[..1] + rows[1..];
      FilterMapAppend(rows[..1], rows[1..], CodeOf);
    }
    forall c | c in TopN(rows, topN) ensures c != "" && Strip(c) == c {
      assert c in Codes(rows);
      FilterMapMembers(rows, CodeOf, c);
      var i :| 0 <= i < |rows| && CodeOf(rows[i]) == Some(c);
      StripTwice(if "code" in rows[i] then rows[i]["code"] else "");
    }
  }

  // ---------------------------------------------------------------------------
  // _price_map
  // ---------------------------------------------------------------------------

  /** `_as_float`: commas removed, then `float()`; what does not parse is NaN. */
  function AsFloat(x: string): Option<real> {
    PyFloat(Filter(x, (c: char) => c != ','))
  }

  /** `r.get("close", "nan")` read as a number. */
  function Close(r: Row): Option<real> {
    if "close" in r then AsFloat(r["close"]) else None
  }

  /** A row's code and close when both are usable: a non-blank code and a positive close. */
  function Priced(r: Row): Option<(string, real)> {
    var c := Field(r, "code");
    var px := Close(r);
    if c != "" && px.Some? && px.value > 0.0 then Some((c, px.value)) else None
  }

  /** The price of each code, a later row for a code replacing an earlier one. */
  function PriceMapOf(rows: seq<Row>): map<string, real> {
    if rows == [] then map[]
    else
      var m := PriceMapOf(rows[..|rows| - 1]);
      match Priced(rows[|rows| - 1])
      case Some(p) => m[p.0 := p.1]
      case None => m
  }

  /** `_price_map`: one pass over the rows, assigning into the map. */
  method PriceMap(rows: seq<Row>) returns (m: map<string, real>)
    ensures m == PriceMapOf(rows)
  {
    m := map[];
    var i := 0;
    while i < |rows|
      invariant 0 <= i <= |rows|
      invariant m == PriceMapOf(rows[..i])
    {
      assert rows[..i + 1][..i] == rows[..i];
      var c := Field(rows[i], "code");
      if c != "" {
        var px := Close(rows[i]);
        if px.Some? && px.value > 0.0 {
          m := m[c := px.value];
        }
      }
      i := i + 1;
    }
    assert rows[..i] == rows;
  }

  /** Row `r` gives code `c` a price. */
  predicate Prices(r: Row, c: string) {
    Priced(r).Some? && Priced(r).value.0 == c
  }

  /** Every price kept is positive. */
  lemma {:induction false} PriceMapPositive(rows: seq<Row>)
    ensures forall c :: c in PriceMapOf(rows) ==> PriceMapOf(rows)[c] > 0.0
  {
    if rows != [] {
      PriceMapPositive(rows[..|rows| - 1]);
    }
  }

  /** A code is priced exactly when some row prices it. */
  lemma {:induction false} PriceMapKeys(rows: seq<Row>, c: string)
    ensures c in PriceMapOf(rows) <==> exists i :: 0 <= i < |rows| && Prices(rows[i], c)
  {
    if rows != [] {
      var init := rows[..|rows| - 1];
      PriceMapKeys(init, c);
      if exists i :: 0 <= i < |rows| && Prices(rows[i], c) {
        var i :| 0 <= i < |rows| && Prices(rows[i], c);
        if i < |init| {
          assert Prices(init[i], c);
        }
      }
      if c in PriceMapOf(init) {
        var i :| 0 <= i < |init| && Prices(init[i], c);
        assert Prices(rows[i], c);
      }
    }
  }

  /** The price kept for a code is the one on its last usable row. */
  lemma {:induction false} PriceMapLast(rows: seq<Row>, i: nat)
    requires i < |rows| && Priced(rows[i]).Some?
    requires forall j :: i < j < |rows| ==> Priced(rows[j]).None? || Priced(rows[j]).value.0 != Priced(rows[i]).value.0
    ensures var p := Priced(rows[i]).value; p.0 in PriceMapOf(rows) && PriceMapOf(rows)[p.0] == p.1
  {
    var init := rows[..|rows| - 1];
    if i < |rows| - 1 {
      assert init[i] == rows[i];
      PriceMapLast(init, i);
    }
  }

  // ---------------------------------------------------------------------------
  // _avg_ret
  // ---------------------------------------------------------------------------

  /** How `_avg_ret` accounts for one code. */
  datatype Fate = Used(ret: real) | MissToday | MissNext | Bad

  function FateOf(c: string, px0: map<string, real>, px1: map<string, real>): Fate {
    if c !in px0 then MissToday
    else if c !in px1 then MissNext
    else if px0[c] <= 0.0 || px1[c] <= 0.0 then Bad
    else Used(px1[c] / px0[c] - 1.0)
  }

  function RetOf(px0: map<string, real>, px1: map<string, real>): string -> Option<real> {
    c => if FateOf(c, px0, px1).Used? then Some(FateOf(c, px0, px1).ret) else None
  }

  function MissedToday(px0: map<string, real>, px1: map<string, real>): string -> bool {
    c => FateOf(c, px0, px1).MissToday?
  }

  function MissedNext(px0: map<string, real>, px1: map<string, real>): string -> bool {
    c => FateOf(c, px0, px1).MissNext?
  }

  function Unusable(px0: map<string, real>, px1: map<string, real>): string -> bool {
    c => FateOf(c, px0, px1).Bad?
  }

  /** The close-to-close returns of the usable codes, in order. */
  function Returns(codes: seq<string>, px0: map<string, real>, px1: map<string, real>): seq<real> {
    FilterMap(codes, RetOf(px0, px1))
  }

  function Sum(xs: seq<real>): real {
    if xs == [] then 0.0 else Sum(xs[..|xs| - 1]) + xs[|xs| - 1]
  }

  /** `_avg_ret`: the mean return of the usable codes and how many codes were used or missing. */
  method AvgRet(codes: seq<string>, px0: map<string, real>, px1: map<string, real>)
      returns (mean: real, used: nat, missToday: nat, missNext: nat)
    ensures used == |Returns(codes, px0, px1)|
    ensures missToday == |Filter(codes, MissedToday(px0, px1))|
    ensures missNext == |Filter(codes, MissedNext(px0, px1))|
    ensures mean == if used == 0 then 0.0 else Sum(Returns(codes, px0, px1)) / used as real
  {
    var rets: seq<real> := [];
    missToday, missNext := 0, 0;
    var bad := 0;
    var i := 0;
    while i < |codes|
      invariant 0 <= i <= |codes|
      invariant rets == Returns(codes[..i], px0, px1)
      invariant missToday == |Filter(codes[..i], MissedToday(px0, px1))|
      invariant missNext == |Filter(codes[..i], MissedNext(px0, px1))|
      invariant bad == |Filter(codes[..i], Unusable(px0, px1))|
    {
      var c := codes[i];
      FateStep(codes, i, px0, px1);
      if c !in px0 {
        missToday := missToday + 1;
      } else if c !in px1 {
        missNext := missNext + 1;
      } else if px0[c] <= 0.0 || px1[c] <= 0.0 {
        bad := bad + 1;
      } else {
        rets := rets + [px1[c] / px0[c] - 1.0];
      }
      i := i + 1;
    }
    assert codes[..i] == codes;
    used := |rets|;
    if rets == [] {
      mean := 0.0;
    } else {
      mean := Sum(rets) / |rets| as real;
    }
  }

  lemma FateStep(codes: seq<string>, i: nat, px0: map<string, real>, px1: map<string, real>)
    requires i < |codes|
    ensures var f := FateOf(codes[i], px0, px1);
            Returns(codes[..i + 1], px0, px1) == Returns(codes[..i], px0, px1) + (if f.Used? then [f.ret] else [])
    ensures var f := FateOf(codes[i], px0, px1);
            |Filter(codes[..i + 1], MissedToday(px0, px1))| == |Filter(codes[..i], MissedToday(px0, px1))| + (if f.MissToday? then 1 else 0)
    ensures var f := FateOf(codes[i], px0, px1);
            |Filter(codes[..i + 1], MissedNext(px0, px1))| == |Filter(codes[..i], MissedNext(px0, px1))| + (if f.MissNext? then 1 else 0)
    ensures var f := FateOf(codes[i], px0, px1);
            |Filter(codes[..i + 1], Unusable(px0, px1))| == |Filter(codes[..i], Unusable(px0, px1))| + (if f.Bad? then 1 else 0)
  {
    var c := codes[i];
    assert codes[..i + 1] == codes[..i] + [c];
    FilterMapSnoc(codes[..i], c, RetOf(px0, px1));
    FilterSnoc(codes[..i], c, MissedToday(px0, px1));
    FilterSnoc(codes[..i], c, MissedNext(px0, px1));
    FilterSnoc(codes[..i], c, Unusable(px0, px1));
  }

  /** Every code is accounted for exactly once: used, missing today, missing next day, or unusable. */
  lemma {:induction false} FatesPartition(codes: seq<string>, px0: map<string, real>, px1: map<string, real>)
    ensures |Returns(codes, px0, px1)| + |Filter(codes, MissedToday(px0, px1))| + |Filter(codes, MissedNext(px0, px1))|
              + |Filter(codes, Unusable(px0, px1))| == |codes|
  {
    if codes != [] {
      var init, c := codes[..|codes| - 1], codes[|codes| - 1];
      FatesPartition(init, px0, px1);
      assert codes == init + [c];
      FilterMapSnoc(init, c, RetOf(px0, px1));
      FilterSnoc(init, c, MissedToday(px0, px1));
      FilterSnoc(init, c, MissedNext(px0, px1));
      FilterSnoc(init, c, Unusable(px0, px1));
    }
  }

  /** With price maps built by `_price_map`, no code is ever unusable. */
  lemma NoBadWithPriceMaps(codes: seq<string>, out0: seq<Row>, out1: seq<Row>)
    ensures Filter(codes, Unusable(PriceMapOf(out0), PriceMapOf(out1))) == []
  {
    PriceMapPositive(out0);
    PriceMapPositive(out1);
    FilterNone(codes, Unusable(PriceMapOf(out0), PriceMapOf(out1)));
  }

  // ---------------------------------------------------------------------------
  // main: the pair loop
  // ---------------------------------------------------------------------------

  /** `expo_tier`: fully in from breadth `risk_on` up, out below. */
  function ExpoTier(br: real, riskOn: real): real {
    if br >= riskOn then 1.0 else 0.0
  }

  /** `expo_cont`: breadth clamped to [0, 1]. */
  function ExpoCont(br: real): real {
    if br < 0.0 then 0.0 else if br > 1.0 then 1.0 else br
  }

  /** What the loop records for one pair of days (the return and equity columns are floating point and left out). */
  datatype Pair = Pair(date: string, nextDate: string, breadth: real, used: nat, missToday: nat, missNext: nat,
                       expoTier: real, expoCont: real)

  predicate TradedNone(p: Pair) { p.used > 0 }
  predicate TradedTier(p: Pair) { p.expoTier > 0.0 && p.used > 0 }
  predicate TradedCont(p: Pair) { p.expoCont > 0.0 && p.used > 0 }
  predicate IdleTier(p: Pair) { !TradedTier(p) }
  predicate IdleCont(p: Pair) { !TradedCont(p) }

  /** The record of one pair, from the earlier day's two files and the later day's daily_out.csv. */
  function PairOf(d0: string, d1: string, read: (string, string) -> seq<Row>, topN: int, riskOn: real): Pair {
    var out0, top0, out1 := read(d0, "daily_out.csv"), read(d0, "daily_top20.csv"), read(d1, "daily_out.csv");
    var br := Breadth(out0);
    var px0, px1 := PriceMapOf(out0), PriceMapOf(out1);
    var codes := TopN(top0, topN);
    Pair(d0, d1, br, |Returns(codes, px0, px1)|, |Filter(codes, MissedToday(px0, px1))|,
         |Filter(codes, MissedNext(px0, px1))|, ExpoTier(br, riskOn), ExpoCont(br))
  }

  /** The traded-day counters of the summary. */
  datatype Tally = Tally(tradedNone: nat, tradedTier: nat, tradedCont: nat, noTradeTier: nat, noTradeCont: nat)

  /** `main` after argument parsing: list the days, stop with 1 below two, otherwise process each consecutive pair once. */
  method Run(rootExists: bool, entries: seq<Entry>, read: (string, string) -> seq<Row>, topN: int, riskOn: real)
      returns (exit: int, pairs: seq<Pair>, tally: Tally)
    ensures var days := Days(rootExists, entries);
            if |days| < 2 then exit == 1 && pairs == []
            else exit == 0 && |pairs| == |days| - 1 &&
                 forall k :: 0 <= k < |pairs| ==> pairs[k] == PairOf(days[k], days[k + 1], read, topN, riskOn)
    ensures tally.tradedNone == |Filter(pairs, TradedNone)|
    ensures tally.tradedTier == |Filter(pairs, TradedTier)| && tally.noTradeTier == |Filter(pairs, IdleTier)|
    ensures tally.tradedCont == |Filter(pairs, TradedCont)| && tally.noTradeCont == |Filter(pairs, IdleCont)|
  {
    tally := Tally(0, 0, 0, 0, 0);
    pairs := [];
    var days := ListDays(rootExists, entries);
    if |days| < 2 {
      return 1, pairs, tally;
    }
    var k := 0;
    while k < |days| - 1
      invariant 0 <= k <= |days| - 1
      invariant |pairs| == k
      invariant forall j :: 0 <= j < k ==> pairs[j] == PairOf(days[j], days[j + 1], read, topN, riskOn)
      invariant tally.tradedNone == |Filter(pairs, TradedNone)|
      invariant tally.tradedTier == |Filter(pairs, TradedTier)| && tally.noTradeTier == |Filter(pairs, IdleTier)|
      invariant tally.tradedCont == |Filter(pairs, TradedCont)| && tally.noTradeCont == |Filter(pairs, IdleCont)|
    {
      var p := ProcessPair(days[k], days[k + 1], read, topN, riskOn);
      tally := Count(tally, pairs, p);
      pairs := pairs + [p];
      k := k + 1;
    }
    exit := 0;
  }

  /** One iteration: read the three files, then breadth, exposures, price maps, codes and the code accounting. */
  method ProcessPair(d0: string, d1: string, read: (string, string) -> seq<Row>, topN: int, riskOn: real) returns (p: Pair)
    ensures p == PairOf(d0, d1, read, topN, riskOn)
  {
    var out0, top0, out1 := read(d0, "daily_out.csv"), read(d0, "daily_top20.csv"), read(d1, "daily_out.csv");
    var br := BreadthRatio(out0);
    var px0 := PriceMap(out0);
    var px1 := PriceMap(out1);
    var codes := TopNCodes(top0, topN);
    var _, used, missToday, missNext := AvgRet(codes, px0, px1);
    p := Pair(d0, d1, br, used, missToday, missNext, ExpoTier(br, riskOn), ExpoCont(br));
  }

  /** The counter updates of one pair. */
  method Count(t: Tally, pairs: seq<Pair>, p: Pair) returns (t': Tally)
    requires t.tradedNone == |Filter(pairs, TradedNone)|
    requires t.tradedTier == |Filter(pairs, TradedTier)| && t.noTradeTier == |Filter(pairs, IdleTier)|
    requires t.tradedCont == |Filter(pairs, TradedCont)| && t.noTradeCont == |Filter(pairs, IdleCont)|
    ensures t'.tradedNone == |Filter(pairs + [p], TradedNone)|
    ensures t'.tradedTier == |Filter(pairs + [p], TradedTier)| && t'.noTradeTier == |Filter(pairs + [p], IdleTier)|
    ensures t'.tradedCont == |Filter(pairs + [p], TradedCont)| && t'.noTradeCont == |Filter(pairs + [p], IdleCont)|
  {
    FilterSnoc(pairs, p, TradedNone);
    FilterSnoc(pairs, p, TradedTier);
    FilterSnoc(pairs, p, IdleTier);
    FilterSnoc(pairs, p, TradedCont);
    FilterSnoc(pairs, p, IdleCont);
    t' := t;
    if p.used > 0 {
      t' := t'.(tradedNone := t'.tradedNone + 1);
    }
    if p.expoTier > 0.0 && p.used > 0 {
      t' := t'.(tradedTier := t'.tradedTier + 1);
    } else {
      t' := t'.(noTradeTier := t'.noTradeTier + 1);
    }
    if p.expoCont > 0.0 && p.used > 0 {
      t' := t'.(tradedCont := t'.tradedCont + 1);
    } else {
      t' := t'.(noTradeCont := t'.noTradeCont + 1);
    }
  }

  /** Traded and idle days of each gated strategy add up to the number of pairs; gating never adds trading days. */
  lemma TallyTotals(pairs: seq<Pair>)
    ensures |Filter(pairs, TradedTier)| + |Filter(pairs, IdleTier)| == |pairs|
    ensures |Filter(pairs, TradedCont)| + |Filter(pairs, IdleCont)| == |pairs|
    ensures |Filter(pairs, TradedTier)| <= |Filter(pairs, TradedNone)|
    ensures |Filter(pairs, TradedCont)| <= |Filter(pairs, TradedNone)|
  {
    FilterSplit(pairs, TradedTier, IdleTier);
    FilterSplit(pairs, TradedCont, IdleCont);
    FilterLenMono(pairs, TradedTier, TradedNone);
    FilterLenMono(pairs, TradedCont, TradedNone);
  }

  /** The exposures of a pair: the tier rule is all or nothing at `risk_on`, the continuous one is the breadth itself. */
  lemma PairExposures(d0: string, d1: string, read: (string, string) -> seq<Row>, topN: int, riskOn: real)
    ensures var p := PairOf(d0, d1, read, topN, riskOn);
            (p.expoTier == 1.0 <==> p.breadth >= riskOn) && (p.expoTier == 0.0 <==> p.breadth < riskOn)
    ensures var p := PairOf(d0, d1, read, topN, riskOn); p.expoCont == p.breadth && 0.0 <= p.expoCont <= 1.0
    ensures var p := PairOf(d0, d1, read, topN, riskOn); p.used + p.missToday + p.missNext <= |TopN(read(d0, "daily_top20.csv"), topN)|
  {
    var out0, top0, out1 := read(d0, "daily_out.csv"), read(d0, "daily_top20.csv"), read(d1, "daily_out.csv");
    BreadthBounds(out0);
    FatesPartition(TopN(top0, topN), PriceMapOf(out0), PriceMapOf(out1));
  }
}
