/**
 * app/ops/quality_gate.py: counts the rows of daily_input.csv whose close or
 * trade value is missing, non-numeric or not positive, compares the shares
 * with two thresholds, and then passes, fails, or (in degrade mode) drops the
 * bad rows and rewrites the input when enough rows remain. Every run leaves a
 * quality report.
 */
module QualityGate {
  import opened Wrappers
  import opened Text
  import opened Seqs
  import opened JsonValue
  import opened Frames

  datatype Mode = FailMode | DegradeMode

  /** `--mode --max_bad_close_pct --max_bad_trade_value_pct --min_rows`. */
  datatype Args = Args(mode: Mode, maxBadClosePct: real, maxBadTradeValuePct: real, minRows: int)

  const Defaults := Args(FailMode, 0.01, 0.005, 800)

  const Required: seq<string> := ["close", "trade_value"]

  /** A value is bad when it is not a number after coercion, or is not positive. */
  predicate BadValue(c: Cell) {
    var v := ToNumeric(c);
    v.None? || v.value <= 0.0
  }

  predicate BadClose(r: Record) { BadValue(At(r, "close")) }
  predicate BadTradeValue(r: Record) { BadValue(At(r, "trade_value")) }

  /** `keep = ~(bad_close_mask | bad_tv_mask)`. */
  predicate Good(r: Record) { !BadClose(r) && !BadTradeValue(r) }
  predicate Bad(r: Record) { BadClose(r) || BadTradeValue(r) }

  /** `bad / n`, or 1.0 for an empty table. */
  function Share(bad: nat, n: nat): (p: real)
    ensures n == 0 ==> p == 1.0
    ensures 0 < n && bad <= n ==> 0.0 <= p <= 1.0
  {
    if n > 0 then ShareBounds(bad, n); bad as real / n as real else 1.0
  }

  lemma ShareBounds(bad: nat, n: nat)
    requires n > 0
    ensures bad <= n ==> 0.0 <= bad as real / n as real <= 1.0
  {
    var q := bad as real / n as real;
    assert q * n as real == bad as real;
  }

  datatype Stats = Stats(rows: nat, badClose: nat, badTradeValue: nat, closePct: real, tradeValuePct: real)

  function StatsOf(rows: seq<Record>): (s: Stats)
    ensures s.rows == |rows| && s.badClose <= s.rows && s.badTradeValue <= s.rows
    ensures 0.0 <= s.closePct <= 1.0 && 0.0 <= s.tradeValuePct <= 1.0
  {
    var bc := |Filter(rows, BadClose)|;
    var bt := |Filter(rows, BadTradeValue)|;
    Stats(|rows|, bc, bt, Share(bc, |rows|), Share(bt, |rows|))
  }

  /** `over`: either share strictly above its threshold. */
  predicate Over(s: Stats, a: Args) {
    s.closePct > a.maxBadClosePct || s.tradeValuePct > a.maxBadTradeValuePct
  }

  /** quality_report.json, by the branch that wrote it. */
  datatype Report =
    | InputMissing(reason: string)
    | ColumnsMissing(reason: string, has: seq<string>)
    | Checked(result: string, stats: Stats, args: Args, after: Option<nat>, dropped: Option<int>, failure: Option<string>)

  /** The effect of one run: exit code, input file, report, and QUALITY_DEGRADED.txt. */
  datatype Outcome = Outcome(exit: int, input: Option<Frame>, report: Report, flag: Option<string>)

  /** `missing_cols`, in the order of the required list. */
  function MissingColumns(f: Frame): seq<string> {
    Filter(Required, c => c !in f.columns)
  }

  /** `str(list)` of column names. */
  function ListText(names: seq<string>): string {
    Repr(JArr(seq(|names|, i requires 0 <= i < |names| => JStr(names[i]))))
  }

  function FlagText(s: Stats, kept: nat, fmt6: real -> string): string {
    "DEGRADED\nrows_before=" + NatToString(s.rows) + "\nrows_after=" + NatToString(kept) + "\n"
    + "bad_close_pct=" + fmt6(s.closePct) + "\nbad_trade_value_pct=" + fmt6(s.tradeValuePct) + "\n"
  }

  /** `main` once the frame is read and both columns exist. */
  function Judge(f: Frame, a: Args, flag: Option<string>, fmt6: real -> string): Outcome {
    var s := StatsOf(f.rows);
    if !Over(s, a) then
      Outcome(0, Some(f), Checked("PASS", s, a, None, None, None), flag)
    else if a.mode == FailMode then
      Outcome(3, Some(f), Checked("FAIL", s, a, None, None, None), flag)
    else
      var kept := Filter(f.rows, Good);
      var dropped := |f.rows| - |kept|;
      if |kept| < a.minRows then
        Outcome(3, Some(f), Checked("FAIL", s, a, Some(|kept|), Some(dropped),
                                    Some("rows_after too few: " + NatToString(|kept|) + " < " + IntToString(a.minRows))), flag)
      else
        Outcome(0, Some(Frame(f.columns, kept)), Checked("DEGRADED", s, a, Some(|kept|), Some(dropped), None),
                Some(FlagText(s, |kept|, fmt6)))
  }

  function Gate(input: Option<Frame>, path: string, a: Args, flag: Option<string>, fmt6: real -> string): Outcome {
    match input
    case None => Outcome(3, None, InputMissing("missing input: " + path), flag)
    case Some(f) =>
      var missing := MissingColumns(f);
      if missing != [] then Outcome(3, input, ColumnsMissing("missing columns: " + ListText(missing), f.columns), flag)
      else Judge(f, a, flag, fmt6)
  }

  /** The data directory: daily_input.csv, quality_report.json and QUALITY_DEGRADED.txt. */
  class DataDir {
    var input: Option<Frame>
    var report: Option<Report>
    var flag: Option<string>

    constructor (input0: Option<Frame>, report0: Option<Report>, flag0: Option<string>)
      ensures input == input0 && report == report0 && flag == flag0
    {
      input, report, flag := input0, report0, flag0;
    }

    /** `main`: each branch writes the report and returns; only a successful degrade rewrites the input. */
    method Invoke(path: string, a: Args, fmt6: real -> string) returns (exit: int)
      modifies this
      ensures var o := Gate(old(input), path, a, old(flag), fmt6);
              exit == o.exit && input == o.input && report == Some(o.report) && flag == o.flag
    {
      if input.None? {
        report := Some(InputMissing("missing input: " + path));
        return 3;
      }
      var f := input.value;
      var missing := MissingColumns(f);
      if missing != [] {
        report := Some(ColumnsMissing("missing columns: " + ListText(missing), f.columns));
        return 3;
      }
      var s := StatsOf(f.rows);
      if Over(s, a) {
        if a.mode == FailMode {
          report := Some(Checked("FAIL", s, a, None, None, None));
          return 3;
        }
        var kept := Filter(f.rows, Good);
        if |kept| < a.minRows {
          report := Some(Checked("FAIL", s, a, Some(|kept|), Some(|f.rows| - |kept|),
                                 Some("rows_after too few: " + NatToString(|kept|) + " < " + IntToString(a.minRows))));
          return 3;
        }
        input := Some(Frame(f.columns, kept));
        flag := Some(FlagText(s, |kept|, fmt6));
        report := Some(Checked("DEGRADED", s, a, Some(|kept|), Some(|f.rows| - |kept|), None));
        return 0;
      }
      report := Some(Checked("PASS", s, a, None, None, None));
      return 0;
    }
  }

  // ---------------------------------------------------------------------------
  // Properties
  // ---------------------------------------------------------------------------

  /** A missing input or a missing required column fails with exit 3 and leaves everything but the report alone. */
  lemma MissingFails(input: Option<Frame>, path: string, a: Args, flag: Option<string>, fmt6: real -> string)
    ensures var o := Gate(input, path, a, flag, fmt6);
            (input.None? || "close" !in input.value.columns || "trade_value" !in input.value.columns) ==>
              o.exit == 3 && o.input == input && o.flag == flag && !o.report.Checked?
  {
    if input.Some? {
      var f := input.value;
      var p := c => c !in f.columns;
      FilterMembers(Required, p, "close");
      FilterMembers(Required, p, "trade_value");
    }
  }

  /** The missing columns are listed in the order of the required list, and only those. */
  lemma MissingColumnsExact(f: Frame, c: string)
    ensures c in MissingColumns(f) <==> c in Required && c !in f.columns
  {
    FilterMembers(Required, x => x !in f.columns, c);
  }

  /** An empty table counts as entirely bad: it is over any threshold below 1. */
  lemma EmptyTableIsOver(a: Args)
    requires a.maxBadClosePct < 1.0
    ensures Over(StatsOf([]), a)
  {
  }

  /**
   * The degrade branch keeps exactly the rows good in both columns, in their
   * order, and `dropped` counts the rows bad in either.
   */
  lemma DegradeKeepsGoodRows(rows: seq<Record>, r: Record)
    ensures r in Filter(rows, Good) <==> r in rows && !BadClose(r) && !BadTradeValue(r)
    ensures |rows| - |Filter(rows, Good)| == |Filter(rows, Bad)|
  {
    FilterMembers(rows, Good, r);
    FilterSplit(rows, Good, Bad);
  }

  /** Fail mode never rewrites the input or the flag file. */
  lemma FailModeKeepsInput(input: Option<Frame>, path: string, a: Args, flag: Option<string>, fmt6: real -> string)
    requires a.mode == FailMode
    ensures var o := Gate(input, path, a, flag, fmt6);
            o.input == input && o.flag == flag && (o.exit == 0 || o.exit == 3)
  {
  }

  /**
   * Exit 0 happens exactly when the columns exist and the shares are within the
   * thresholds, or degrade mode leaves at least `min_rows` rows; the input
   * changes only in the second case, to its good rows.
   */
  lemma ExitZeroMeans(f: Frame, path: string, a: Args, flag: Option<string>, fmt6: real -> string)
    requires MissingColumns(f) == []
    ensures var o := Gate(Some(f), path, a, flag, fmt6);
            var s := StatsOf(f.rows);
            && (o.exit == 0 <==> !Over(s, a) || (a.mode == DegradeMode && |Filter(f.rows, Good)| >= a.minRows))
            && (o.exit != 0 ==> o.exit == 3 && o.input == Some(f) && o.flag == flag)
            && (o.exit == 0 && !Over(s, a) ==> o.input == Some(f) && o.report.result == "PASS")
            && (o.exit == 0 && Over(s, a) ==> o.input == Some(Frame(f.columns, Filter(f.rows, Good)))
                                              && o.report.result == "DEGRADED")
  {
  }
}
