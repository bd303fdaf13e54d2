/**
 * app/ops/health_gate.py: the same decision as check_health.py
 * (`RunSummary.Decide`), with its own alert texts, the time on a line of its
 * own, and 400 rows read by default. `unlinkFails` says that removing the
 * alert file raises.
 */
module HealthGate {
  import opened Wrappers
  import opened Text
  import opened RunSummary

  /** The defaults of `main`'s argument parser. */
  const Defaults := Limits(7, 0.40, 5, 48, 400)

  /** `_write_alert`: the time in brackets on its own line, then the message and a newline. */
  function AlertText(stamp: string, msg: string): string {
    "[" + stamp + "]\n" + msg + "\n"
  }

  function FailedMessage(r: Row): string {
    "FAILED detected in recent window\n"
    + "timestamp=" + Cell(r, "timestamp") + "\n"
    + "used_core=" + Cell(r, "used_core") + "\n"
    + "output=" + Cell(r, "output") + "\n"
    + "log=" + Cell(r, "log")
  }

  /** The ratio alert; `window_days` is printed as given, not as clamped. */
  function RatioMessage(v: Verdict, a: Limits, pct: real -> string): string
    requires v.RatioExceeded?
  {
    "FALLBACK ratio exceeded threshold\n"
    + "window_days=" + IntToString(a.windowDays) + "\n"
    + "threshold=" + pct(a.fbRatio) + "\n"
    + "fallback_count=" + NatToString(v.fallbacks) + "\n"
    + "success_count=" + NatToString(v.samples) + "\n"
    + "ratio=" + pct(v.ratio) + "\n"
  }

  /**
   * The alert file after `main`: written for 30, 31, 32; removed for 0 unless
   * the removal fails (`_clear_alert` ignores the error); untouched when the
   * division raises.
   */
  function AlertAfter(before: Option<string>, unlinkFails: bool, v: Verdict, a: Limits, stamp: string, pct: real -> string): (after: Option<string>)
    ensures v.Healthy? && !unlinkFails ==> after.None?
    ensures v.Healthy? && unlinkFails ==> after == before
    ensures v.ZeroDivision? ==> after == before
    ensures v.NoRows? || v.RecentFailed? || v.RatioExceeded? ==> after.Some? && EndsWith(after.value, "\n")
  {
    match v
    case NoRows => Some(AlertText(stamp, "No run_summary.csv; health unknown."))
    case RecentFailed(r) => Some(AlertText(stamp, FailedMessage(r)))
    case RatioExceeded(_, _, _) => Some(AlertText(stamp, RatioMessage(v, a, pct)))
    case ZeroDivision => before
    case Healthy => if unlinkFails then before else None
  }

  /** The directory that holds HEALTH_ALERT.txt. */
  class Gate {
    /** The alert file's text, `None` when there is no file. */
    var alert: Option<string>

    constructor (alert0: Option<string>)
      ensures alert == alert0
    {
      alert := alert0;
    }

    /** `main`: read the rows, decide, then write or clear the alert. */
    method Invoke(summary: Option<seq<Row>>, a: Limits, now: int, stamp: string, iso: string -> Option<int>,
                  pct: real -> string, unlinkFails: bool) returns (exit: int)
      modifies this
      ensures var v := Decide(ReadRows(summary, a.maxRows), a, now, iso);
              exit == ExitCode(v) && alert == AlertAfter(old(alert), unlinkFails, v, a, stamp, pct)
    {
      var rows := ReadRows(summary, a.maxRows);
      var v := Assess(rows, a, now, iso);
      match v {
        case NoRows =>
          alert := Some(AlertText(stamp, "No run_summary.csv; health unknown."));
        case RecentFailed(r) =>
          alert := Some(AlertText(stamp, FailedMessage(r)));
        case RatioExceeded(_, _, _) =>
          alert := Some(AlertText(stamp, RatioMessage(v, a, pct)));
        case ZeroDivision =>
        case Healthy =>
          if !unlinkFails {
            alert := None;
          }
      }
      exit := ExitCode(v);
    }
  }

  /** With the default limits the division never raises, and at most 400 rows are read. */
  lemma DefaultExits(summary: Option<seq<Row>>, now: int, iso: string -> Option<int>)
    ensures var e := ExitCode(Decide(ReadRows(summary, Defaults.maxRows), Defaults, now, iso));
            e == 0 || e == 30 || e == 31 || e == 32
    ensures |ReadRows(summary, Defaults.maxRows)| <= 400
  {
    ZeroDivisionNeedsNoSamples(ReadRows(summary, Defaults.maxRows), Defaults, now, iso);
  }
}
