/**
 * app/ops/cleanup_logs.py: the older single-folder cleanup. Regular files
 * of the logs folder older than thirty days are deleted and the count is
 * written to a marker line; a missing folder does nothing at all.
 *
 * The clock reading and the marker's timestamp text are parameters; the
 * marker file is the returned line (`None` when nothing is written).
 */
module CleanupLogs {
  import opened Wrappers
  import opened Text
  import opened Retention

  const KeepDays := 30

  /** `main`: the exit status is always 0. */
  method LogsMain(logs: Folder, now: int, stamp: string, fails: set<string>)
      returns (deleted: nat, marker: Option<string>, exit: int)
    modifies logs
    ensures !old(logs.present) ==> logs.entries == old(logs.entries) && deleted == 0 && marker == None
    ensures old(logs.present) ==> logs.entries == Kept(old(logs.entries), Cutoff(now, KeepDays), fails)
    ensures old(logs.present) ==> deleted == |Doomed(old(logs.entries), Cutoff(now, KeepDays), fails)|
    ensures old(logs.present) ==> marker == Some(stamp + " deleted=" + NatToString(deleted) + " keep_days=30\n")
    ensures logs.present == old(logs.present)
    ensures exit == 0
  {
    if !logs.present {
      return 0, None, 0;
    }
    assert NatToString(KeepDays) == NatToString(3) + [DigitChar(0)] == "30";
    deleted := logs.Sweep(Cutoff(now, KeepDays), fails);
    var tail := " keep_days=" + NatToString(KeepDays) + "\n";
    assert tail == " keep_days=30\n";
    marker := Some(stamp + " deleted=" + NatToString(deleted) + tail);
    exit := 0;
  }
}
