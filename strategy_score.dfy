/**
 * fallback_core/strategy_score.py: the fallback core's scoring. Each row gets a
 * trade value, a turnover, its trade-value rank and percentile within its
 * market (TWSE, TWO or UNK), four tier lights, a composite score, a decision
 * flag and a top-N flag.
 *
 * Frames are sequences of records; a missing or non-numeric number is `None`
 * (pandas' NaN), and every comparison with NaN is false. Arithmetic is exact.
 */
module StrategyScore {
  import opened Wrappers
  import opened Text
  import opened Seqs
  import opened Frames

  /** `_coalesce_col`: the first candidate, in list order, that is a column of the frame. */
  function Coalesce(columns: seq<string>, candidates: seq<string>): (c: Option<string>)
    ensures c.Some? ==> c.value in columns && c.value in candidates
    ensures c.Some? ==> exists i :: 0 <= i < |candidates| && candidates[i] == c.value &&
                                    forall j :: 0 <= j < i ==> candidates[j] !in columns
    ensures c.None? ==> forall i :: 0 <= i < |candidates| ==> candidates[i] !in columns
  {
    var p := (x: string) => x in columns;
    match FirstWhere(candidates, p, 0)
    case Some(i) =>
      assert forall j :: 0 <= j < i ==> !p(candidates[j]);
      Some(candidates[i])
    case None => None
  }

  // ---------------------------------------------------------------------------
  // _as_market
  // ---------------------------------------------------------------------------

  const MarketColumns: seq<string> := ["market", "exchange", "mkt", "board"]
  const Groups: seq<string> := ["TWSE", "TWO", "UNK"]

  /** The `replace` table, then `where(isin(["TWSE", "TWO"]), "UNK")`. */
  function Canonical(u: string): (m: string)
    ensures m in Groups
  {
    if u == "TSE" || u == "TWSE" || u == "上市" then "TWSE"
    else if u == "OTC" || u == "TWO" || u == "上櫃" then "TWO"
    else "UNK"
  }

  /**
   * `astype(str).str.upper().str.strip()`, then `Canonical`. A number prints as
   * its digits and a missing value as "nan", neither of which names a market.
   */
  function MarketOf(c: Cell): (m: string)
    ensures m in Groups
  {
    match c
    case Txt(s) => Canonical(Strip(Upper(s)))
    case _ => "UNK"
  }

  /** `_as_market`: every row UNK when no market-like column exists. */
  function Markets(f: Frame): (m: seq<string>)
    ensures |m| == |f.rows|
    ensures forall i :: 0 <= i < |m| ==> m[i] in Groups
    ensures (forall k :: 0 <= k < |MarketColumns| ==> MarketColumns[k] !in f.columns) ==>
              forall i :: 0 <= i < |m| ==> m[i] == "UNK"
  {
    match Coalesce(f.columns, MarketColumns)
    case None => seq(|f.rows|, _ => "UNK")
    case Some(c) => seq(|f.rows|, i requires 0 <= i < |f.rows| => MarketOf(At(f.rows[i], c)))
  }

  /** The listed spellings of the two exchanges map to them; anything else is UNK. */
  lemma MarketSpellings(s: string)
    ensures Strip(Upper(s)) in ["TSE", "TWSE", "上市"] ==> MarketOf(Txt(s)) == "TWSE"
    ensures Strip(Upper(s)) in ["OTC", "TWO", "上櫃"] ==> MarketOf(Txt(s)) == "TWO"
    ensures Strip(Upper(s)) !in ["TSE", "TWSE", "上市", "OTC", "TWO", "上櫃"] ==> MarketOf(Txt(s)) == "UNK"
  {
  }

  // ---------------------------------------------------------------------------
  // compute_trade_value, compute_turnover
  // ---------------------------------------------------------------------------

  const TradeValueColumns: seq<string> := ["trade_value", "amount", "turnover_value", "成交金額", "成交值"]
  const CloseColumns: seq<string> := ["close", "price", "收盤價"]
  const VolumeColumns: seq<string> := ["volume", "vol", "成交量"]
  const TurnoverColumns: seq<string> := ["turnover", "turnover_ratio", "周轉率"]
  const FloatColumns: seq<string> := ["shares_float", "float_shares", "流通股數", "float"]

  /** `_ensure_numeric` of the chosen column, all NaN when there is none. */
  function Column(f: Frame, c: Option<string>): (xs: seq<Option<real>>)
    ensures |xs| == |f.rows|
  {
    seq(|f.rows|, i requires 0 <= i < |f.rows| => if c.Some? then ToNumeric(At(f.rows[i], c.value)) else None)
  }

  /** `a * b` on two possibly-NaN numbers. */
  function Times(a: Option<real>, b: Option<real>): Option<real> {
    if a.Some? && b.Some? then Some(a.value * b.value) else None
  }

  /** `_safe_div`: a zero divisor is NaN first, so the quotient is NaN. */
  function SafeDiv(a: Option<real>, b: Option<real>): Option<real> {
    if a.Some? && b.Some? && b.value != 0.0 then Some(a.value / b.value) else None
  }

  /** `compute_trade_value`: the first trade-value column present, otherwise close times volume. */
  function TradeValue(f: Frame): (tv: seq<Option<real>>)
    ensures |tv| == |f.rows|
  {
    match Coalesce(f.columns, TradeValueColumns)
    case Some(c) => Column(f, Some(c))
    case None =>
      var close := Column(f, Coalesce(f.columns, CloseColumns));
      var vol := Column(f, Coalesce(f.columns, VolumeColumns));
      seq(|f.rows|, i requires 0 <= i < |f.rows| => Times(close[i], vol[i]))
  }

  /** `compute_turnover`: the first turnover column present, otherwise volume over float shares. */
  function Turnover(f: Frame): (t: seq<Option<real>>)
    ensures |t| == |f.rows|
  {
    match Coalesce(f.columns, TurnoverColumns)
    case Some(c) => Column(f, Some(c))
    case None =>
      var vol := Column(f, Coalesce(f.columns, VolumeColumns));
      var flt := Column(f, Coalesce(f.columns, FloatColumns));
      seq(|f.rows|, i requires 0 <= i < |f.rows| => SafeDiv(vol[i], flt[i]))
  }

  /** A trade-value column, when there is one, is read as it is; otherwise every value is close times volume. */
  lemma TradeValueSource(f: Frame)
    ensures (exists k :: 0 <= k < |TradeValueColumns| && TradeValueColumns[k] in f.columns) ==>
              exists c :: c in TradeValueColumns && c in f.columns &&
                          forall i :: 0 <= i < |f.rows| ==> TradeValue(f)[i] == ToNumeric(At(f.rows[i], c))
    ensures (forall k :: 0 <= k < |TradeValueColumns| ==> TradeValueColumns[k] !in f.columns) ==>
              forall i :: 0 <= i < |f.rows| ==>
                TradeValue(f)[i] == Times(Column(f, Coalesce(f.columns, CloseColumns))[i],
                                          Column(f, Coalesce(f.columns, VolumeColumns))[i])
  {
    match Coalesce(f.columns, TradeValueColumns)
    case Some(c) =>
    case None =>
  }

  // ---------------------------------------------------------------------------
  // compute_market_trade_value_rank
  // ---------------------------------------------------------------------------

  /** One row as the ranking sees it. */
  datatype Quote = Quote(market: string, tv: Option<real>)

  function Quotes(mkt: seq<string>, tv: seq<Option<real>>): (qs: seq<Quote>)
    requires |mkt| == |tv|
    ensures |qs| == |tv|
  {
    seq(|tv|, i requires 0 <= i < |tv| => Quote(mkt[i], tv[i]))
  }

  function AboveP(g: string, x: real): Quote -> bool { (q: Quote) => q.market == g && q.tv.Some? && q.tv.value > x }
  function BelowP(g: string, x: real): Quote -> bool { (q: Quote) => q.market == g && q.tv.Some? && q.tv.value < x }
  function TiedP(g: string, x: real): Quote -> bool { (q: Quote) => q.market == g && q.tv.Some? && q.tv.value == x }
  function AtMostP(g: string, x: real): Quote -> bool { (q: Quote) => q.market == g && q.tv.Some? && q.tv.value <= x }
  function ValuedP(g: string): Quote -> bool { (q: Quote) => q.market == g && q.tv.Some? }

  /** `rank(ascending=False, method="min")` within the row's market: one more than the number of larger values. */
  function MinRank(qs: seq<Quote>, i: nat): (r: Option<nat>)
    requires i < |qs|
    ensures r.Some? <==> qs[i].tv.Some?
    ensures r.Some? ==> r.value >= 1
  {
    if qs[i].tv.None? then None
    else Some(1 + |Filter(qs, AboveP(qs[i].market, qs[i].tv.value))|)
  }

  /** `rank(pct=True, method="average")`: the mean position of the tied values, counted from the smallest, over the count. */
  function PctRank(qs: seq<Quote>, i: nat): (r: Option<real>)
    requires i < |qs|
    ensures r.Some? <==> qs[i].tv.Some?
  {
    if qs[i].tv.None? then None
    else
      var g, x := qs[i].market, qs[i].tv.value;
      var n := |Filter(qs, ValuedP(g))|;
      FilterHas(qs, ValuedP(g), i);
      Some(((|Filter(qs, BelowP(g, x))| as real) + (|Filter(qs, TiedP(g, x))| as real + 1.0) / 2.0) / n as real)
  }

  /** The ranks of every row, computed group by group: a row outside the three groups keeps NaN. */
  method MarketRanks(mkt: seq<string>, tv: seq<Option<real>>) returns (rank: seq<Option<nat>>, pct: seq<Option<real>>)
    requires |mkt| == |tv|
    ensures |rank| == |tv| && |pct| == |tv|
    ensures forall i :: 0 <= i < |tv| ==> rank[i] == (if mkt[i] in Groups then MinRank(Quotes(mkt, tv), i) else None)
    ensures forall i :: 0 <= i < |tv| ==> pct[i] == (if mkt[i] in Groups then PctRank(Quotes(mkt, tv), i) else None)
  {
    var qs := Quotes(mkt, tv);
    rank := seq(|tv|, _ => None);
    pct := seq(|tv|, _ => None);
    var k := 0;
    while k < |Groups|
      invariant 0 <= k <= |Groups|
      invariant |rank| == |tv| && |pct| == |tv|
      invariant forall i :: 0 <= i < |tv| ==> rank[i] == (if mkt[i] in Groups[..k] then MinRank(qs, i) else None)
      invariant forall i :: 0 <= i < |tv| ==> pct[i] == (if mkt[i] in Groups[..k] then PctRank(qs, i) else None)
    {
      var g := Groups[k];
      assert Groups[..k + 1] == Groups[..k] + [g];
      if g in mkt {
        var r0, p0 := rank, pct;
        rank := seq(|tv|, i requires 0 <= i < |tv| => if mkt[i] == g then MinRank(qs, i) else r0[i]);
        pct := seq(|tv|, i requires 0 <= i < |tv| => if mkt[i] == g then PctRank(qs, i) else p0[i]);
      }
      k := k + 1;
    }
    assert Groups[..k] == Groups;
  }

  /** Rank 1 goes to the largest value of a market: a row ranks first exactly when no row of its market is larger. */
  lemma RankOne(qs: seq<Quote>, i: nat)
    requires i < |qs| && qs[i].tv.Some?
    ensures MinRank(qs, i) == Some(1) <==>
              forall j :: 0 <= j < |qs| && qs[j].market == qs[i].market && qs[j].tv.Some? ==> qs[j].tv.value <= qs[i].tv.value
  {
    var p := AboveP(qs[i].market, qs[i].tv.value);
    if forall j :: 0 <= j < |qs| && qs[j].market == qs[i].market && qs[j].tv.Some? ==> qs[j].tv.value <= qs[i].tv.value {
      FilterNone(qs, p);
    } else {
      var j :| 0 <= j < |qs| && qs[j].market == qs[i].market && qs[j].tv.Some? && qs[j].tv.value > qs[i].tv.value;
      FilterHas(qs, p, j);
    }
  }

  /** A larger value of the same market ranks strictly better; equal values share the smallest rank of their tie. */
  lemma RankOrder(qs: seq<Quote>, i: nat, j: nat)
    requires i < |qs| && j < |qs| && qs[i].market == qs[j].market && qs[i].tv.Some? && qs[j].tv.Some?
    ensures qs[i].tv.value > qs[j].tv.value ==> MinRank(qs, i).value < MinRank(qs, j).value
    ensures qs[i].tv.value == qs[j].tv.value ==> MinRank(qs, i) == MinRank(qs, j)
  {
    var g, x, y := qs[i].market, qs[i].tv.value, qs[j].tv.value;
    if x > y {
      FilterLenStrict(qs, AboveP(g, x), AboveP(g, y), i);
    }
  }

  /** A rank lies between 1 and the number of valued rows of the market. */
  lemma RankBounds(qs: seq<Quote>, i: nat)
    requires i < |qs| && qs[i].tv.Some?
    ensures 1 <= MinRank(qs, i).value <= |Filter(qs, ValuedP(qs[i].market))|
  {
    var g, x := qs[i].market, qs[i].tv.value;
    FilterLenStrict(qs, AboveP(g, x), ValuedP(g), i);
  }

  /** The percentile lies in (0, 1]. */
  lemma PctBounds(qs: seq<Quote>, i: nat)
    requires i < |qs| && qs[i].tv.Some?
    ensures 0.0 < PctRank(qs, i).value <= 1.0
  {
    var g, x := qs[i].market, qs[i].tv.value;
    var below, tied := |Filter(qs, BelowP(g, x))|, |Filter(qs, TiedP(g, x))|;
    var n := |Filter(qs, ValuedP(g))|;
    FilterDisjoint(qs, BelowP(g, x), TiedP(g, x), AtMostP(g, x));
    FilterLenMono(qs, AtMostP(g, x), ValuedP(g));
    FilterHas(qs, TiedP(g, x), i);
    var a := below as real + (tied as real + 1.0) / 2.0;
    assert 0.0 < a <= n as real;
    FractionBounds(a, n as real);
  }

  lemma FractionBounds(a: real, n: real)
    requires 0.0 < a <= n
    ensures 0.0 < a / n <= 1.0
  {
  }

  /** A larger value of the same market has a strictly larger percentile. */
  lemma PctOrder(qs: seq<Quote>, i: nat, j: nat)
    requires i < |qs| && j < |qs| && qs[i].market == qs[j].market && qs[i].tv.Some? && qs[j].tv.Some?
    requires qs[i].tv.value > qs[j].tv.value
    ensures PctRank(qs, i).value > PctRank(qs, j).value
  {
    var g, x, y := qs[i].market, qs[i].tv.value, qs[j].tv.value;
    var n := |Filter(qs, ValuedP(g))|;
    FilterHas(qs, ValuedP(g), i);
    FilterDisjoint(qs, BelowP(g, y), TiedP(g, y), AtMostP(g, y));
    FilterLenMono(qs, AtMostP(g, y), BelowP(g, x));
    FilterHas(qs, TiedP(g, y), j);
    PctStep(|Filter(qs, BelowP(g, x))|, |Filter(qs, TiedP(g, x))|, |Filter(qs, BelowP(g, y))|, |Filter(qs, TiedP(g, y))|, n);
  }

  lemma PctStep(bi: nat, ti: nat, bj: nat, tj: nat, n: nat)
    requires bj + tj <= bi && tj >= 1 && n > 0
    ensures (bi as real + (ti as real + 1.0) / 2.0) / n as real > (bj as real + (tj as real + 1.0) / 2.0) / n as real
  {
    DivMono(bj as real + (tj as real + 1.0) / 2.0, bi as real + (ti as real + 1.0) / 2.0, n as real);
  }

  lemma DivMono(b: real, a: real, n: real)
    requires b < a && n > 0.0
    ensures b / n < a / n
  {
  }

  // ---------------------------------------------------------------------------
  // Lights
  // ---------------------------------------------------------------------------

  /** `LightConfig`. */
  datatype LightConfig = LightConfig(turnoverHi: real, turnoverMid: real, tvPctHi: real, tvPctMid: real,
                                     shortUsedHi: real, shortUsedMid: real, marginUsedHi: real, marginUsedMid: real,
                                     topnEachMarket: int)

  const DefaultConfig := LightConfig(0.06, 0.03, 0.90, 0.70, 0.09, 0.03, 0.40, 0.15, 20)

  const ShortColumns: seq<string> := ["short_used_ratio", "short_use_ratio", "融券使用率"]
  const MarginColumns: seq<string> := ["margin_used_ratio", "margin_use_ratio", "融資使用率"]

  /** A tier light: 2 from `hi` up, else 1 from `mid` up, else 0; NaN compares false and gives 0. */
  function Tier(x: Option<real>, mid: real, hi: real): (t: int)
    ensures 0 <= t <= 2
  {
    if x.Some? && x.value >= hi then 2 else if x.Some? && x.value >= mid then 1 else 0
  }

  /** With `mid <= hi`, the three tiers are the three bands of values. */
  lemma TierBands(x: Option<real>, mid: real, hi: real)
    requires mid <= hi
    ensures Tier(x, mid, hi) == 2 <==> x.Some? && x.value >= hi
    ensures Tier(x, mid, hi) == 1 <==> x.Some? && mid <= x.value < hi
    ensures Tier(x, mid, hi) == 0 <==> x.None? || x.value < mid
  {
  }

  /** A larger value never gets a lower tier; a missing value gets the lowest. */
  lemma TierMonotone(x: Option<real>, y: Option<real>, mid: real, hi: real)
    requires mid <= hi
    requires x.None? || (y.Some? && x.value <= y.value)
    ensures Tier(x, mid, hi) <= Tier(y, mid, hi)
  {
  }

  /** `(full_raw / 2.0).clip(0, 4)`. */
  function FullScore(raw: int): real {
    var h := raw as real / 2.0;
    if h < 0.0 then 0.0 else if h > 4.0 then 4.0 else h
  }

  /** `light_decision`: ON from a composite of 2 up. */
  function Decision(full: real): int {
    if full >= 2.0 then 1 else 0
  }

  /** Four lights of at most 2 each: the score is half their sum, in [0, 4], and the decision is on from a sum of 4. */
  lemma FullScoreRange(a: int, b: int, c: int, d: int)
    requires 0 <= a <= 2 && 0 <= b <= 2 && 0 <= c <= 2 && 0 <= d <= 2
    ensures FullScore(a + b + c + d) == (a + b + c + d) as real / 2.0
    ensures 0.0 <= FullScore(a + b + c + d) <= 4.0
    ensures Decision(FullScore(a + b + c + d)) == 1 <==> a + b + c + d >= 4
  {
  }

  /** The top-N flag of the two exchanges, computed group by group; UNK rows stay 0. */
  method Top20(mkt: seq<string>, rank: seq<Option<nat>>, topn: int) returns (top: seq<int>)
    requires |mkt| == |rank|
    ensures |top| == |mkt|
    ensures forall i :: 0 <= i < |mkt| ==>
              top[i] == (if (mkt[i] == "TWSE" || mkt[i] == "TWO") && rank[i].Some? && rank[i].value <= topn then 1 else 0)
  {
    var exchanges := ["TWSE", "TWO"];
    top := seq(|mkt|, _ => 0);
    var k := 0;
    while k < |exchanges|
      invariant 0 <= k <= |exchanges|
      invariant |top| == |mkt|
      invariant forall i :: 0 <= i < |mkt| ==>
                  top[i] == (if mkt[i] in exchanges[..k] && rank[i].Some? && rank[i].value <= topn then 1 else 0)
    {
      var g := exchanges[k];
      assert exchanges[..k + 1] == exchanges[..k] + [g];
      if g in mkt {
        var t0 := top;
        top := seq(|mkt|, i requires 0 <= i < |mkt| =>
                 if mkt[i] == g then (if rank[i].Some? && rank[i].value <= topn then 1 else 0) else t0[i]);
      }
      k := k + 1;
    }
    assert exchanges[..k] == exchanges;
  }

  /** A row of the same exchange with a larger trade value than a flagged row is flagged too. */
  lemma Top20Closed(qs: seq<Quote>, i: nat, j: nat, topn: int)
    requires i < |qs| && j < |qs| && qs[i].market == qs[j].market && qs[i].tv.Some? && qs[j].tv.Some?
    requires qs[j].tv.value >= qs[i].tv.value && MinRank(qs, i).value <= topn
    ensures MinRank(qs, j).value <= topn
  {
    RankOrder(qs, j, i);
  }

  // ---------------------------------------------------------------------------
  // compute_lights
  // ---------------------------------------------------------------------------

  const AddedColumns: seq<string> := ["trade_value", "turnover", "tv_rank_mkt", "tv_pct_mkt",
                                      "light_full", "light_decision", "light_top20"]

  /** `df[c] = ...` on the column list: a present column keeps its place, a new one goes last. */
  function WithColumns(cols: seq<string>, names: seq<string>): (r: seq<string>)
    ensures |r| >= |cols| && r[..|cols|] == cols
    ensures forall x :: x in r <==> x in cols || x in names
    decreases |names|
  {
    if names == [] then cols
    else
      var c1 := if names[0] in cols then cols else cols + [names[0]];
      var r := WithColumns(c1, names[1..]);
      assert r[..|cols|] == r[..|c1|][..|cols|];
      assert forall x :: x in names <==> x == names[0] || x in names[1..];
      r
  }

  /** A number column cell: NaN is a missing value. */
  function NumCell(x: Option<real>): Cell {
    if x.Some? then Num(x.value) else Blank
  }

  function RankCell(r: Option<nat>): Cell {
    if r.Some? then Num(r.value as real) else Blank
  }

  /** What compute_lights writes into one row. */
  datatype RowScore = RowScore(tv: Option<real>, turnover: Option<real>, rank: Option<nat>, pct: Option<real>,
                               full: real, decision: int, top20: int)

  function Scored(r: Record, s: RowScore): Record {
    r["trade_value" := NumCell(s.tv)]["turnover" := NumCell(s.turnover)]
     ["tv_rank_mkt" := RankCell(s.rank)]["tv_pct_mkt" := NumCell(s.pct)]
     ["light_full" := Num(s.full)]["light_decision" := Num(s.decision as real)]
     ["light_top20" := Num(s.top20 as real)]
  }

  /** The sum of the four tier lights: turnover, trade-value percentile, short use, margin use. */
  function RawScore(cfg: LightConfig, turnover: Option<real>, pct: Option<real>, su: Option<real>, mu: Option<real>): int {
    Tier(turnover, cfg.turnoverMid, cfg.turnoverHi) + Tier(pct, cfg.tvPctMid, cfg.tvPctHi)
      + Tier(su, cfg.shortUsedMid, cfg.shortUsedHi) + Tier(mu, cfg.marginUsedMid, cfg.marginUsedHi)
  }

  function ShortUsed(f: Frame): (xs: seq<Option<real>>)
    ensures |xs| == |f.rows|
  {
    Column(f, Coalesce(f.columns, ShortColumns))
  }

  function MarginUsed(f: Frame): (xs: seq<Option<real>>)
    ensures |xs| == |f.rows|
  {
    Column(f, Coalesce(f.columns, MarginColumns))
  }

  /** The score of a row from its trade value, turnover, ranks, short and margin use, and market. */
  function ScoreWith(cfg: LightConfig, tv: Option<real>, turnover: Option<real>, rank: Option<nat>, pct: Option<real>,
                     su: Option<real>, mu: Option<real>, m: string): RowScore
  {
    var full := FullScore(RawScore(cfg, turnover, pct, su, mu));
    var top := if (m == "TWSE" || m == "TWO") && rank.Some? && rank.value <= cfg.topnEachMarket then 1 else 0;
    RowScore(tv, turnover, rank, pct, full, Decision(full), top)
  }

  /** The score of row `i`, read off the whole frame. */
  function ScoreOf(f: Frame, cfg: LightConfig, i: nat): RowScore
    requires i < |f.rows|
  {
    var qs := Quotes(Markets(f), TradeValue(f));
    ScoreWith(cfg, TradeValue(f)[i], Turnover(f)[i], MinRank(qs, i), PctRank(qs, i),
              ShortUsed(f)[i], MarginUsed(f)[i], Markets(f)[i])
  }

  /** The rows compute_lights returns, from the input rows and the columns read off the input. */
  function RowsFrom(rows: seq<Record>, cfg: LightConfig, tv: seq<Option<real>>, turnover: seq<Option<real>>,
                    su: seq<Option<real>>, mu: seq<Option<real>>, mkt: seq<string>): (out: seq<Record>)
    requires |tv| == |rows| && |turnover| == |rows| && |su| == |rows| && |mu| == |rows| && |mkt| == |rows|
    ensures |out| == |rows|
  {
    var qs := Quotes(mkt, tv);
    seq(|rows|, i requires 0 <= i < |rows| =>
      Scored(rows[i], ScoreWith(cfg, tv[i], turnover[i], MinRank(qs, i), PctRank(qs, i), su[i], mu[i], mkt[i])))
  }

  /** The frame compute_lights returns: the input with the seven columns set on every row. */
  function Lights(f: Frame, cfg: LightConfig): (out: Frame)
    ensures |out.rows| == |f.rows|
  {
    Frame(WithColumns(f.columns, AddedColumns),
          RowsFrom(f.rows, cfg, TradeValue(f), Turnover(f), ShortUsed(f), MarginUsed(f), Markets(f)))
  }

  /** The rows compute_lights assembles from the columns it computed. */
  function RowsWith(rows: seq<Record>, cfg: LightConfig, tv: seq<Option<real>>, turnover: seq<Option<real>>,
                    su: seq<Option<real>>, mu: seq<Option<real>>,
                    rank: seq<Option<nat>>, pct: seq<Option<real>>, top: seq<int>): (out: seq<Record>)
    requires |tv| == |rows| && |turnover| == |rows| && |su| == |rows| && |mu| == |rows|
    requires |rank| == |rows| && |pct| == |rows| && |top| == |rows|
    ensures |out| == |rows|
  {
    seq(|rows|, i requires 0 <= i < |rows| =>
      var full := FullScore(RawScore(cfg, turnover[i], pct[i], su[i], mu[i]));
      Scored(rows[i], RowScore(tv[i], turnover[i], rank[i], pct[i], full, Decision(full), top[i])))
  }

  /** `compute_lights`, step by step: the columns, the group-wise ranks, the lights and the group-wise top-N flag. */
  method ComputeLights(f: Frame, cfg: LightConfig) returns (out: Frame)
    ensures out == Lights(f, cfg)
  {
    var tv, turnover := TradeValue(f), Turnover(f);
    var mkt := Markets(f);
    var rank, pct := MarketRanks(mkt, tv);
    var su, mu := ShortUsed(f), MarginUsed(f);
    var top := Top20(mkt, rank, cfg.topnEachMarket);
    out := Frame(WithColumns(f.columns, AddedColumns), RowsWith(f.rows, cfg, tv, turnover, su, mu, rank, pct, top));
    RowsAgree(f.rows, cfg, tv, turnover, su, mu, mkt, rank, pct, top);
  }

  lemma RowsAgree(rows: seq<Record>, cfg: LightConfig, tv: seq<Option<real>>, turnover: seq<Option<real>>,
                  su: seq<Option<real>>, mu: seq<Option<real>>, mkt: seq<string>,
                  rank: seq<Option<nat>>, pct: seq<Option<real>>, top: seq<int>)
    requires |tv| == |rows| && |turnover| == |rows| && |su| == |rows| && |mu| == |rows| && |mkt| == |rows|
    requires |rank| == |rows| && |pct| == |rows| && |top| == |rows|
    requires forall i :: 0 <= i < |mkt| ==> mkt[i] in Groups
    requires forall i :: 0 <= i < |tv| ==> rank[i] == (if mkt[i] in Groups then MinRank(Quotes(mkt, tv), i) else None)
    requires forall i :: 0 <= i < |tv| ==> pct[i] == (if mkt[i] in Groups then PctRank(Quotes(mkt, tv), i) else None)
    requires forall i :: 0 <= i < |mkt| ==>
               top[i] == (if (mkt[i] == "TWSE" || mkt[i] == "TWO") && rank[i].Some? && rank[i].value <= cfg.topnEachMarket then 1 else 0)
    ensures RowsWith(rows, cfg, tv, turnover, su, mu, rank, pct, top) == RowsFrom(rows, cfg, tv, turnover, su, mu, mkt)
  {
    var a, b := RowsWith(rows, cfg, tv, turnover, su, mu, rank, pct, top), RowsFrom(rows, cfg, tv, turnover, su, mu, mkt);
    forall i | 0 <= i < |rows|
      ensures a[i] == b[i]
    {
      assert mkt[i] in Groups;
      ScoreAgrees(cfg, tv[i], turnover[i], rank[i], pct[i], su[i], mu[i], mkt[i], top[i]);
    }
    SameAt(a, b);
  }

  lemma ScoreAgrees(cfg: LightConfig, tv: Option<real>, turnover: Option<real>, rank: Option<nat>, pct: Option<real>,
                    su: Option<real>, mu: Option<real>, m: string, top: int)
    requires top == (if (m == "TWSE" || m == "TWO") && rank.Some? && rank.value <= cfg.topnEachMarket then 1 else 0)
    ensures var full := FullScore(RawScore(cfg, turnover, pct, su, mu));
            RowScore(tv, turnover, rank, pct, full, Decision(full), top) == ScoreWith(cfg, tv, turnover, rank, pct, su, mu, m)
  {
  }

  /** Every column of the input survives, in place; the seven columns follow when new. */
  lemma LightsColumns(f: Frame, cfg: LightConfig)
    ensures Lights(f, cfg).columns[..|f.columns|] == f.columns
    ensures forall c :: c in Lights(f, cfg).columns <==> c in f.columns || c in AddedColumns
  {
  }

  /** One output row: other cells unchanged, the score in [0, 4], the decision and top-N flags by their rules. */
  lemma LightsRow(f: Frame, cfg: LightConfig, i: nat)
    requires i < |f.rows|
    ensures forall c :: c !in AddedColumns ==> At(Lights(f, cfg).rows[i], c) == At(f.rows[i], c)
    ensures At(Lights(f, cfg).rows[i], "trade_value") == NumCell(TradeValue(f)[i])
    ensures At(Lights(f, cfg).rows[i], "tv_rank_mkt").Num? <==> TradeValue(f)[i].Some?
    ensures At(Lights(f, cfg).rows[i], "tv_rank_mkt").Num? ==> At(Lights(f, cfg).rows[i], "tv_rank_mkt").x >= 1.0
    ensures var v := At(Lights(f, cfg).rows[i], "light_full"); v.Num? && 0.0 <= v.x <= 4.0
    ensures At(Lights(f, cfg).rows[i], "light_decision") == Num(if At(Lights(f, cfg).rows[i], "light_full").x >= 2.0 then 1.0 else 0.0)
    ensures At(Lights(f, cfg).rows[i], "light_top20") ==
              Num(if Markets(f)[i] != "UNK" && TradeValue(f)[i].Some? &&
                     MinRank(Quotes(Markets(f), TradeValue(f)), i).value <= cfg.topnEachMarket then 1.0 else 0.0)
  {
    var qs := Quotes(Markets(f), TradeValue(f));
    LightsRowIs(f, cfg, i);
    ScoredCells(f.rows[i], ScoreOf(f, cfg, i));
    assert qs[i] == Quote(Markets(f)[i], TradeValue(f)[i]);
    ScoreWithProps(cfg, TradeValue(f)[i], Turnover(f)[i], MinRank(qs, i), PctRank(qs, i),
                   ShortUsed(f)[i], MarginUsed(f)[i], Markets(f)[i]);
  }

  /** The score of one row: composite in [0, 4], decision from 2 up, top-N only on the two exchanges. */
  lemma ScoreWithProps(cfg: LightConfig, tv: Option<real>, turnover: Option<real>, rank: Option<nat>, pct: Option<real>,
                       su: Option<real>, mu: Option<real>, m: string)
    requires m in Groups && (rank.Some? <==> tv.Some?)
    ensures var s := ScoreWith(cfg, tv, turnover, rank, pct, su, mu, m); 0.0 <= s.full <= 4.0
    ensures var s := ScoreWith(cfg, tv, turnover, rank, pct, su, mu, m); s.decision == if s.full >= 2.0 then 1 else 0
    ensures ScoreWith(cfg, tv, turnover, rank, pct, su, mu, m).top20 ==
              if m != "UNK" && tv.Some? && rank.value <= cfg.topnEachMarket then 1 else 0
  {
    FullScoreRange(Tier(turnover, cfg.turnoverMid, cfg.turnoverHi), Tier(pct, cfg.tvPctMid, cfg.tvPctHi),
                   Tier(su, cfg.shortUsedMid, cfg.shortUsedHi), Tier(mu, cfg.marginUsedMid, cfg.marginUsedHi));
  }

  lemma LightsRowIs(f: Frame, cfg: LightConfig, i: nat)
    requires i < |f.rows|
    ensures Lights(f, cfg).rows[i] == Scored(f.rows[i], ScoreOf(f, cfg, i))
  {
  }

  lemma ScoredCells(r: Record, s: RowScore)
    ensures forall c :: c !in AddedColumns ==> At(Scored(r, s), c) == At(r, c)
    ensures At(Scored(r, s), "trade_value") == NumCell(s.tv)
    ensures At(Scored(r, s), "tv_rank_mkt") == RankCell(s.rank)
    ensures At(Scored(r, s), "light_full") == Num(s.full)
    ensures At(Scored(r, s), "light_decision") == Num(s.decision as real)
    ensures At(Scored(r, s), "light_top20") == Num(s.top20 as real)
  {
  }
}
