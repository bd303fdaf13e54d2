/**
 * The health decision over run_summary.csv, shared by check_health.py and
 * app/ops/health_gate.py: both read the last rows of the table, look for a
 * FAILED run in the recent hours, then compute the share of FALLBACK runs among
 * the SUCCESS runs of the last days, falling back to the most recent SUCCESS
 * runs when the window holds too few.
 *
 * A row is what `csv.DictReader` yields: a map from column name to cell text.
 * Timestamps are integer seconds; `datetime.fromisoformat` is the parameter
 * `iso`, answering `None` where it raises.
 */
module RunSummary {
  import opened Wrappers
  import opened Text
  import opened Seqs

  type Row = map<string, string>

  /** `(r.get(k, "") or "")`. */
  function Cell(r: Row, k: string): string {
    if k in r then r[k] else ""
  }

  /** `_is_success`, `_is_failed`, `_used_core`: trimmed and upper-cased before comparing. */
  function ResultOf(r: Row): string { Upper(Strip(Cell(r, "result"))) }
  function UsedCore(r: Row): string { Upper(Strip(Cell(r, "used_core"))) }
  predicate IsSuccess(r: Row) { ResultOf(r) == "SUCCESS" }
  predicate IsFailed(r: Row) { ResultOf(r) == "FAILED" }
  predicate IsFallback(r: Row) { UsedCore(r) == "FALLBACK" }

  /** `_parse_ts`: blank text is no time at all; otherwise what `fromisoformat` makes of the trimmed text. */
  function ParseTs(s: string, iso: string -> Option<int>): Option<int> {
    var u := Strip(s);
    if u == "" then None else iso(u)
  }

  function Stamp(r: Row, iso: string -> Option<int>): Option<int> {
    ParseTs(Cell(r, "timestamp"), iso)
  }

  /** `_read_last_rows` / `_read_rows`: no file reads as no rows; `max_rows > 0` keeps only the last ones. */
  function ReadRows(summary: Option<seq<Row>>, maxRows: int): (rows: seq<Row>)
    ensures summary.None? ==> rows == []
    ensures summary.Some? && maxRows <= 0 ==> rows == summary.value
    ensures summary.Some? && maxRows > 0 ==>
              |rows| == (if maxRows < |summary.value| then maxRows else |summary.value|)
              && rows == summary.value[|summary.value| - |rows|..]
  {
    match summary
    case None => []
    case Some(all) => if maxRows > 0 then LastN(all, maxRows) else all
  }

  /** The command-line limits: `--window_days --fb_ratio --min_samples --recent_hours --max_rows`. */
  datatype Limits = Limits(windowDays: int, fbRatio: real, minSamples: int, recentHours: int, maxRows: int)

  function Max(a: int, b: int): int { if a >= b then a else b }

  /** `now - timedelta(hours=max(recent_hours, 1))`. */
  function FailedCutoff(a: Limits, now: int): int { now - Max(a.recentHours, 1) * 3600 }

  /** `now - timedelta(days=max(window_days, 1))`. */
  function RatioCutoff(a: Limits, now: int): int { now - Max(a.windowDays, 1) * 86400 }

  /** A FAILED run whose timestamp parses and is not before the cutoff. */
  predicate RecentFailure(r: Row, iso: string -> Option<int>, cutoff: int) {
    Stamp(r, iso).Some? && Stamp(r, iso).value >= cutoff && IsFailed(r)
  }

  /** The first recent FAILED row. */
  function FirstFailure(rows: seq<Row>, iso: string -> Option<int>, cutoff: int): (k: Option<nat>)
    ensures k.Some? ==> k.value < |rows|
  {
    FirstWhere(rows, r => RecentFailure(r, iso, cutoff), 0)
  }

  /** The index found is a recent failure with none before it; finding none means there is none. */
  lemma FirstFailureSpec(rows: seq<Row>, iso: string -> Option<int>, cutoff: int)
    ensures var k := FirstFailure(rows, iso, cutoff);
            && (k.Some? ==> RecentFailure(rows[k.value], iso, cutoff)
                            && forall j :: 0 <= j < k.value ==> !RecentFailure(rows[j], iso, cutoff))
            && (k.None? ==> forall j :: 0 <= j < |rows| ==> !RecentFailure(rows[j], iso, cutoff))
  {
    var p := (r: Row) => RecentFailure(r, iso, cutoff);
    var k := FirstWhere(rows, p, 0);
    forall j | 0 <= j < |rows| && p(rows[j]) ensures RecentFailure(rows[j], iso, cutoff) {}
    forall j | 0 <= j < |rows| && !p(rows[j]) ensures !RecentFailure(rows[j], iso, cutoff) {}
  }

  /** A SUCCESS run whose timestamp parses and is not before the cutoff. */
  predicate InWindow(r: Row, iso: string -> Option<int>, cutoff: int) {
    Stamp(r, iso).Some? && Stamp(r, iso).value >= cutoff && IsSuccess(r)
  }

  function WindowSuccesses(rows: seq<Row>, iso: string -> Option<int>, cutoff: int): seq<Row> {
    Filter(rows, r => InWindow(r, iso, cutoff))
  }

  function Successes(rows: seq<Row>): seq<Row> {
    Filter(rows, IsSuccess)
  }

  /** The rows the ratio is taken over: the window, or the last `max(min_samples, 1)` SUCCESS rows when the window is short. */
  function Sample(rows: seq<Row>, iso: string -> Option<int>, cutoff: int, minSamples: int): seq<Row> {
    var w := WindowSuccesses(rows, iso, cutoff);
    if |w| < minSamples then
      var all := Successes(rows);
      if all != [] then LastN(all, Max(minSamples, 1)) else []
    else w
  }

  /** `fb_cnt`: the sample rows that ran on the fallback core. */
  function FallbackCount(sample: seq<Row>): nat {
    |Filter(sample, IsFallback)|
  }

  /** What `main` concludes. `ZeroDivision` is the run that raises at `fb_cnt / len(succ)`. */
  datatype Verdict =
    | NoRows
    | RecentFailed(row: Row)
    | RatioExceeded(fallbacks: nat, samples: nat, ratio: real)
    | ZeroDivision
    | Healthy

  function Decide(rows: seq<Row>, a: Limits, now: int, iso: string -> Option<int>): Verdict {
    if rows == [] then NoRows
    else match FirstFailure(rows, iso, FailedCutoff(a, now))
      case Some(k) => RecentFailed(rows[k])
      case None => RatioVerdict(Sample(rows, iso, RatioCutoff(a, now), a.minSamples), a)
  }

  /** Check 2, last part: the FALLBACK share of the sample against `fb_ratio`, when the sample is large enough. */
  function RatioVerdict(s: seq<Row>, a: Limits): Verdict {
    if |s| >= a.minSamples then
      if |s| == 0 then ZeroDivision
      else
        var fb := FallbackCount(s);
        var ratio := fb as real / |s| as real;
        if ratio > a.fbRatio then RatioExceeded(fb, |s|, ratio) else Healthy
    else Healthy
  }

  /** The process exit status; an uncaught exception ends the interpreter with 1. */
  function ExitCode(v: Verdict): int {
    match v
    case NoRows => 30
    case RecentFailed(_) => 31
    case RatioExceeded(_, _, _) => 32
    case ZeroDivision => 1
    case Healthy => 0
  }

  // ---------------------------------------------------------------------------
  // The loops of `main`
  // ---------------------------------------------------------------------------

  /** Check 1: the rows in order, stopping at the first recent FAILED one. */
  method FindRecentFailure(rows: seq<Row>, iso: string -> Option<int>, cutoff: int) returns (k: Option<nat>)
    ensures k == FirstFailure(rows, iso, cutoff)
  {
    ghost var p := (r: Row) => RecentFailure(r, iso, cutoff);
    var i := 0;
    while i < |rows|
      invariant 0 <= i <= |rows|
      invariant FirstWhere(rows, p, i) == FirstWhere(rows, p, 0)
    {
      if RecentFailure(rows[i], iso, cutoff) {
        assert p(rows[i]);
        return Some(i);
      }
      assert !p(rows[i]);
      i := i + 1;
    }
    return None;
  }

  /** Check 2, first part: the SUCCESS rows of the window, appended in order. */
  method CollectWindow(rows: seq<Row>, iso: string -> Option<int>, cutoff: int) returns (succ: seq<Row>)
    ensures succ == WindowSuccesses(rows, iso, cutoff)
  {
    succ := [];
    var i := 0;
    while i < |rows|
      invariant 0 <= i <= |rows|
      invariant succ == WindowSuccesses(rows[..i], iso, cutoff)
    {
      var r := rows[i];
      assert rows[..i + 1] == rows[..i] + [r];
      FilterSnoc(rows[..i], r, x => InWindow(x, iso, cutoff));
      var t := Stamp(r, iso);
      if t.Some? && t.value >= cutoff && IsSuccess(r) {
        succ := succ + [r];
      }
      i := i + 1;
    }
    assert rows[..i] == rows;
  }

  /** Both checks in the order `main` makes them. */
  method Assess(rows: seq<Row>, a: Limits, now: int, iso: string -> Option<int>) returns (v: Verdict)
    ensures v == Decide(rows, a, now, iso)
  {
    if rows == [] {
      return NoRows;
    }
    var k := FindRecentFailure(rows, iso, FailedCutoff(a, now));
    if k.Some? {
      return RecentFailed(rows[k.value]);
    }
    var succ := CollectWindow(rows, iso, RatioCutoff(a, now));
    if |succ| < a.minSamples {
      succ := Successes(rows);
      succ := if succ != [] then LastN(succ, Max(a.minSamples, 1)) else [];
    }
    if |succ| >= a.minSamples {
      if |succ| == 0 {
        return ZeroDivision;
      }
      var fb := FallbackCount(succ);
      var ratio := fb as real / |succ| as real;
      if ratio > a.fbRatio {
        return RatioExceeded(fb, |succ|, ratio);
      }
    }
    return Healthy;
  }

  // ---------------------------------------------------------------------------
  // Properties of the decision
  // ---------------------------------------------------------------------------

  /** A row is in the window sample exactly when its timestamp parses, is not before the cutoff, and it is a SUCCESS. */
  lemma WindowMembers(rows: seq<Row>, iso: string -> Option<int>, cutoff: int, r: Row)
    ensures r in WindowSuccesses(rows, iso, cutoff) <==>
              r in rows && Stamp(r, iso).Some? && Stamp(r, iso).value >= cutoff && IsSuccess(r)
  {
    FilterMembers(rows, x => InWindow(x, iso, cutoff), r);
  }

  /**
   * The sample is the window when it holds at least `min_samples` rows;
   * otherwise the last `max(min_samples, 1)` SUCCESS rows of the whole table.
   * Either way it holds SUCCESS rows of the table only.
   */
  lemma SampleShape(rows: seq<Row>, iso: string -> Option<int>, cutoff: int, minSamples: int)
    ensures var w := WindowSuccesses(rows, iso, cutoff);
            var s := Sample(rows, iso, cutoff, minSamples);
            && (|w| >= minSamples ==> s == w)
            && (|w| < minSamples ==> s == LastN(Successes(rows), Max(minSamples, 1)))
            && (forall r :: r in s ==> r in rows && IsSuccess(r))
  {
    var w := WindowSuccesses(rows, iso, cutoff);
    var all := Successes(rows);
    forall r | r in w ensures r in rows && IsSuccess(r) {
      WindowMembers(rows, iso, cutoff, r);
    }
    forall r | r in all ensures r in rows && IsSuccess(r) {
      FilterMembers(rows, IsSuccess, r);
    }
    if |w| < minSamples && all != [] {
      var s := LastN(all, Max(minSamples, 1));
      forall r | r in s ensures r in all {
        var i :| 0 <= i < |s| && s[i] == r;
        assert s[i] == all[|all| - |s| + i];
      }
    }
  }

  /** Rows whose timestamp is blank or does not parse count in neither check. */
  lemma UnstampedRowsIgnored(rows: seq<Row>, a: Limits, now: int, iso: string -> Option<int>, r: Row)
    requires Stamp(r, iso).None?
    ensures !RecentFailure(r, iso, FailedCutoff(a, now))
    ensures r !in WindowSuccesses(rows, iso, RatioCutoff(a, now))
  {
    WindowMembers(rows, iso, RatioCutoff(a, now), r);
  }

  /** No rows: exit 30. A recent FAILED row: exit 31, whatever the ratio would say. */
  lemma FailureComesFirst(rows: seq<Row>, a: Limits, now: int, iso: string -> Option<int>)
    ensures ExitCode(Decide(rows, a, now, iso)) == 30 <==> rows == []
    ensures ExitCode(Decide(rows, a, now, iso)) == 31 <==>
              rows != [] && exists i :: 0 <= i < |rows| && RecentFailure(rows[i], iso, FailedCutoff(a, now))
    ensures Decide(rows, a, now, iso).RecentFailed? ==> IsFailed(Decide(rows, a, now, iso).row)
  {
    var k := FirstFailure(rows, iso, FailedCutoff(a, now));
    FirstFailureSpec(rows, iso, FailedCutoff(a, now));
    var v := RatioVerdict(Sample(rows, iso, RatioCutoff(a, now), a.minSamples), a);
    assert v.NoRows? == false && v.RecentFailed? == false;
    if rows != [] && k.None? {
      assert Decide(rows, a, now, iso) == v;
    }
  }

  /** The ratio check alone: 32 when the sample is large enough, not empty, and strictly over the threshold; else 0, or the division error. */
  lemma RatioVerdictMeans(s: seq<Row>, a: Limits)
    ensures var v := RatioVerdict(s, a);
            && (ExitCode(v) == 32 <==> |s| >= a.minSamples && |s| > 0 && FallbackCount(s) as real / |s| as real > a.fbRatio)
            && (ExitCode(v) == 0 <==> |s| < a.minSamples || (|s| > 0 && FallbackCount(s) as real / |s| as real <= a.fbRatio))
            && (v.RatioExceeded? ==> v.fallbacks <= v.samples && 0.0 <= v.ratio <= 1.0)
            && (v.NoRows? || v.RecentFailed?) == false
  {
    if |s| > 0 {
      ShareBounds(FallbackCount(s), |s|);
    }
  }

  lemma ShareBounds(part: nat, whole: nat)
    requires 0 < whole && part <= whole
    ensures 0.0 <= part as real / whole as real <= 1.0
  {
    var q := part as real / whole as real;
    assert q * whole as real == part as real;
  }

  /**
   * Exit 32 exactly when no recent FAILED row exists, the sample holds at least
   * `min_samples` rows (and some), and the FALLBACK share is strictly above the
   * threshold.
   */
  lemma RatioAlert(rows: seq<Row>, a: Limits, now: int, iso: string -> Option<int>)
    ensures var s := Sample(rows, iso, RatioCutoff(a, now), a.minSamples);
            ExitCode(Decide(rows, a, now, iso)) == 32 <==>
              && rows != []
              && (forall i :: 0 <= i < |rows| ==> !RecentFailure(rows[i], iso, FailedCutoff(a, now)))
              && |s| >= a.minSamples && |s| > 0
              && FallbackCount(s) as real / |s| as real > a.fbRatio
    ensures var v := Decide(rows, a, now, iso);
            v.RatioExceeded? ==> v.fallbacks <= v.samples && 0.0 <= v.ratio <= 1.0
  {
    var k := FirstFailure(rows, iso, FailedCutoff(a, now));
    FirstFailureSpec(rows, iso, FailedCutoff(a, now));
    var s := Sample(rows, iso, RatioCutoff(a, now), a.minSamples);
    RatioVerdictMeans(s, a);
    if rows != [] && k.None? {
      assert Decide(rows, a, now, iso) == RatioVerdict(s, a);
    }
  }

  /** Exit 0: rows exist, no recent failure, and the sample is too small or its FALLBACK share within the threshold. */
  lemma HealthyMeans(rows: seq<Row>, a: Limits, now: int, iso: string -> Option<int>)
    ensures var s := Sample(rows, iso, RatioCutoff(a, now), a.minSamples);
            ExitCode(Decide(rows, a, now, iso)) == 0 <==>
              && rows != []
              && (forall i :: 0 <= i < |rows| ==> !RecentFailure(rows[i], iso, FailedCutoff(a, now)))
              && (|s| < a.minSamples || (|s| > 0 && FallbackCount(s) as real / |s| as real <= a.fbRatio))
  {
    var k := FirstFailure(rows, iso, FailedCutoff(a, now));
    FirstFailureSpec(rows, iso, FailedCutoff(a, now));
    var s := Sample(rows, iso, RatioCutoff(a, now), a.minSamples);
    RatioVerdictMeans(s, a);
    if k.Some? {
      assert RecentFailure(rows[k.value], iso, FailedCutoff(a, now));
      assert Decide(rows, a, now, iso) == RecentFailed(rows[k.value]);
    }
    if rows != [] && k.None? {
      assert Decide(rows, a, now, iso) == RatioVerdict(s, a);
    }
  }

  /**
   * The division raises only when `min_samples <= 0` lets an empty sample
   * through; with `min_samples >= 1`, the default 5 included, it cannot happen.
   */
  lemma ZeroDivisionNeedsNoSamples(rows: seq<Row>, a: Limits, now: int, iso: string -> Option<int>)
    ensures Decide(rows, a, now, iso) == ZeroDivision ==>
              a.minSamples <= 0 && WindowSuccesses(rows, iso, RatioCutoff(a, now)) == []
    ensures a.minSamples >= 1 ==> Decide(rows, a, now, iso) != ZeroDivision
  {
  }

  /** A table of one non-FAILED row without a SUCCESS raises when `min_samples` is 0. */
  lemma ZeroDivisionExample(iso: string -> Option<int>, now: int)
    ensures Decide([map["result" := "RUNNING"]], Limits(7, 0.4, 0, 48, 200), now, iso) == ZeroDivision
  {
    var r: Row := map["result" := "RUNNING"];
    assert Cell(r, "timestamp") == "";
    assert Strip("") == "";
    assert ResultOf(r) == "RUNNING" by {
      assert !IsSpace('R') && !IsSpace('G');
      assert Strip("RUNNING") == "RUNNING";
    }
    assert Successes([r]) == [] by {
      assert [r][..0] == [];
    }
    assert WindowSuccesses([r], iso, RatioCutoff(Limits(7, 0.4, 0, 48, 200), now)) == [] by {
      assert [r][..0] == [];
    }
  }
}
