/**
 * check_health.py: the health gate beside the orchestrator. It decides with
 * `RunSummary.Decide` and keeps HEALTH_ALERT.txt: written with the reason on
 * exits 30, 31 and 32, removed on exit 0.
 *
 * The clock is the parameter `now` (seconds) with `stamp` its ISO text;
 * `pct` is the `:.2%` formatting of a float and `isoAt` the `isoformat` of a
 * time. `unlinkFails` says that removing the alert file raises.
 */
module CheckHealth {
  import opened Wrappers
  import opened Text
  import opened RunSummary

  /** The defaults of `build_parser`. */
  const Defaults := Limits(7, 0.40, 5, 48, 200)

  /** `_write_alert`: the time in brackets, a space, the message and a newline. */
  function AlertText(stamp: string, msg: string): string {
    "[" + stamp + "] " + msg + "\n"
  }

  function FailedMessage(r: Row): string {
    "FAILED detected in recent window.\n"
    + "timestamp=" + Cell(r, "timestamp") + "\n"
    + "mode=" + Cell(r, "mode") + "\n"
    + "output=" + Cell(r, "output") + "\n"
    + "log=" + Cell(r, "log")
  }

  function RatioMessage(v: Verdict, a: Limits, now: int, pct: real -> string, isoAt: int -> string): string
    requires v.RatioExceeded?
  {
    "Risk: FALLBACK ratio exceeded threshold (SUCCESS runs only)\n"
    + "fallback_count=" + NatToString(v.fallbacks) + "\n"
    + "success_count=" + NatToString(v.samples) + "\n"
    + "ratio=" + pct(v.ratio) + "\n"
    + "threshold=" + pct(a.fbRatio) + "\n"
    + "window_days=" + IntToString(Max(a.windowDays, 1)) + "\n"
    + "window_start=" + isoAt(RatioCutoff(a, now))
  }

  /**
   * The alert file after `main`: written for 30, 31, 32; removed for 0 unless
   * the removal fails (`_clear_alert` ignores the error); untouched when the
   * division raises.
   */
  function AlertAfter(before: Option<string>, unlinkFails: bool, v: Verdict, a: Limits, now: int, stamp: string,
                      pct: real -> string, isoAt: int -> string): (after: Option<string>)
    ensures v.Healthy? && !unlinkFails ==> after.None?
    ensures v.Healthy? && unlinkFails ==> after == before
    ensures v.ZeroDivision? ==> after == before
    ensures v.NoRows? || v.RecentFailed? || v.RatioExceeded? ==> after.Some? && EndsWith(after.value, "\n")
  {
    match v
    case NoRows => Some(AlertText(stamp, "No run_summary.csv or empty summary; cannot assess health."))
    case RecentFailed(r) => Some(AlertText(stamp, FailedMessage(r)))
    case RatioExceeded(_, _, _) => Some(AlertText(stamp, RatioMessage(v, a, now, pct, isoAt)))
    case ZeroDivision => before
    case Healthy => if unlinkFails then before else None
  }

  /** The directory that holds HEALTH_ALERT.txt. */
  class Monitor {
    /** The alert file's text, `None` when there is no file. */
    var alert: Option<string>

    constructor (alert0: Option<string>)
      ensures alert == alert0
    {
      alert := alert0;
    }

    /** `main`: read the rows, decide, then write or clear the alert. */
    method Invoke(summary: Option<seq<Row>>, a: Limits, now: int, stamp: string, iso: string -> Option<int>,
                  pct: real -> string, isoAt: int -> string, unlinkFails: bool) returns (exit: int)
      modifies this
      ensures var v := Decide(ReadRows(summary, a.maxRows), a, now, iso);
              exit == ExitCode(v) && alert == AlertAfter(old(alert), unlinkFails, v, a, now, stamp, pct, isoAt)
    {
      var rows := ReadRows(summary, a.maxRows);
      var v := Assess(rows, a, now, iso);
      match v {
        case NoRows =>
          alert := Some(AlertText(stamp, "No run_summary.csv or empty summary; cannot assess health."));
        case RecentFailed(r) =>
          alert := Some(AlertText(stamp, FailedMessage(r)));
        case RatioExceeded(_, _, _) =>
          alert := Some(AlertText(stamp, RatioMessage(v, a, now, pct, isoAt)));
        case ZeroDivision =>
        case Healthy =>
          if !unlinkFails {
            alert := None;
          }
      }
      exit := ExitCode(v);
    }
  }

  /** With the default limits the division never raises, and every exit is one of 0, 30, 31, 32. */
  lemma DefaultExits(summary: Option<seq<Row>>, now: int, iso: string -> Option<int>)
    ensures var e := ExitCode(Decide(ReadRows(summary, Defaults.maxRows), Defaults, now, iso));
            e == 0 || e == 30 || e == 31 || e == 32
    ensures |ReadRows(summary, Defaults.maxRows)| <= 200
  {
    ZeroDivisionNeedsNoSamples(ReadRows(summary, Defaults.maxRows), Defaults, now, iso);
  }
}
