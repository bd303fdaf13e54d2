/**
 * app/ops/cleanup_retention.py: deletes the regular files of the logs,
 * inbound and prepared folders whose modification time is older than each
 * folder's configured number of days, and records the three counts.
 *
 * Times are whole seconds on one clock; the clock readings, the marker's
 * timestamp text and the configuration values are parameters. A name in
 * `fails` is an entry whose `stat` or `unlink` raises: it is skipped.
 */
module Retention {
  import opened Text

  const SecondsPerDay := 86400

  /** An entry of a folder: a regular file with its modification time, or anything else. */
  datatype Node = File(mtime: int) | Other

  /** The entries one sweep removes: regular files older than the cutoff whose removal does not fail. */
  function Doomed(entries: map<string, Node>, cutoff: int, fails: set<string>): set<string> {
    set n | n in entries && entries[n].File? && entries[n].mtime < cutoff && n !in fails
  }

  /** What a sweep leaves: every other entry, unchanged. */
  function Kept(entries: map<string, Node>, cutoff: int, fails: set<string>): map<string, Node> {
    map n | n in entries && n !in Doomed(entries, cutoff, fails) :: entries[n]
  }

  /** A folder on disk. */
  class Folder {
    var present: bool
    var entries: map<string, Node>

    constructor (present: bool, entries: map<string, Node>)
      ensures this.present == present && this.entries == entries
    {
      this.present := present;
      this.entries := entries;
    }

    /**
     * `_cleanup_dir`: a missing folder deletes nothing; otherwise each entry,
     * in whatever order the listing gives, is removed when it is a regular
     * file older than `cutoff`, and the removals are counted.
     */
    method Sweep(cutoff: int, fails: set<string>) returns (deleted: nat)
      modifies this
      ensures present == old(present)
      ensures !old(present) ==> entries == old(entries) && deleted == 0
      ensures old(present) ==> entries == Kept(old(entries), cutoff, fails)
      ensures old(present) ==> deleted == |Doomed(old(entries), cutoff, fails)|
    {
      if !present {
        return 0;
      }
      ghost var start := entries;
      ghost var doomed := Doomed(start, cutoff, fails);
      ghost var gone: set<string> := {};
      var todo := entries.Keys;
      deleted := 0;
      while todo != {}
        invariant present && todo <= start.Keys
        invariant gone == doomed - todo
        invariant entries == Without(start, gone)
        invariant deleted == |gone|
        decreases todo
      {
        var n :| n in todo;
        var node := entries[n];
        if node.File? && node.mtime < cutoff && n !in fails {
          RemoveOne(start, gone, n);
          entries := map k | k in entries && k != n :: entries[k];
          deleted := deleted + 1;
          gone := gone + {n};
        }
        todo := todo - {n};
      }
    }
  }

  /** `m` without the keys in `s`. */
  function Without(m: map<string, Node>, s: set<string>): map<string, Node> {
    map k | k in m && k !in s :: m[k]
  }

  lemma RemoveOne(start: map<string, Node>, gone: set<string>, n: string)
    requires n !in gone
    ensures var e := Without(start, gone); (map k | k in e && k != n :: e[k]) == Without(start, gone + {n})
    ensures |gone + {n}| == |gone| + 1
  {
  }

  /** The cutoff `now - timedelta(days=keep_days)`. */
  function Cutoff(now: int, keepDays: int): int {
    now - keepDays * SecondsPerDay
  }

  /** An entry is removed exactly when it is a regular file strictly older than the cutoff and its removal does not fail. */
  lemma SweepRemoves(entries: map<string, Node>, cutoff: int, fails: set<string>, n: string)
    requires n in entries
    ensures n !in Kept(entries, cutoff, fails) <==> entries[n].File? && entries[n].mtime < cutoff && n !in fails
    ensures n in Kept(entries, cutoff, fails) ==> Kept(entries, cutoff, fails)[n] == entries[n]
    ensures Kept(entries, cutoff, fails).Keys <= entries.Keys
  {
  }

  /** A file modified exactly at the cutoff is kept: the comparison is strict. */
  lemma CutoffIsStrict(entries: map<string, Node>, cutoff: int, fails: set<string>, n: string)
    requires n in entries && entries[n] == File(cutoff)
    ensures n in Kept(entries, cutoff, fails)
  {
  }

  /** Without failures, the count is the number of old regular files. */
  lemma CountWithoutFailures(entries: map<string, Node>, cutoff: int)
    ensures Doomed(entries, cutoff, {}) == set n | n in entries && entries[n].File? && entries[n].mtime < cutoff
    ensures |Doomed(entries, cutoff, {})| <= |entries|
  {
    assert Doomed(entries, cutoff, {}) <= entries.Keys;
    SubsetCard(Doomed(entries, cutoff, {}), entries.Keys);
  }

  lemma SubsetCard(a: set<string>, b: set<string>)
    requires a <= b
    ensures |a| <= |b|
  {
    if a != {} {
      var x :| x in a;
      SubsetCard(a - {x}, b - {x});
    }
  }

  /** A second sweep with the same cutoff and failures deletes nothing. */
  lemma SweepIdempotent(entries: map<string, Node>, cutoff: int, fails: set<string>)
    ensures Doomed(Kept(entries, cutoff, fails), cutoff, fails) == {}
  {
    var k := Kept(entries, cutoff, fails);
    forall n | n in k ensures !(k[n].File? && k[n].mtime < cutoff && n !in fails) {
      assert n !in Doomed(entries, cutoff, fails);
    }
  }

  /** A later cutoff deletes at least what an earlier one does. */
  lemma LaterCutoffDeletesMore(entries: map<string, Node>, c1: int, c2: int, fails: set<string>)
    requires c1 <= c2
    ensures Doomed(entries, c1, fails) <= Doomed(entries, c2, fails)
  {
  }

  /**
   * `main`: the three folders swept independently, each with its own keep-days
   * and its own set of files whose deletion fails, and the marker line.
   */
  method RetentionMain(logs: Folder, inbound: Folder, prepared: Folder,
                       keepLogs: int, keepInbound: int, keepPrepared: int,
                       now1: int, now2: int, now3: int, stamp: string,
                       fails1: set<string>, fails2: set<string>, fails3: set<string>)
      returns (d1: nat, d2: nat, d3: nat, marker: string, exit: int)
    requires logs != inbound && logs != prepared && inbound != prepared
    modifies logs, inbound, prepared
    ensures old(logs.present) ==> logs.entries == Kept(old(logs.entries), Cutoff(now1, keepLogs), fails1) &&
                                  d1 == |Doomed(old(logs.entries), Cutoff(now1, keepLogs), fails1)|
    ensures old(inbound.present) ==> inbound.entries == Kept(old(inbound.entries), Cutoff(now2, keepInbound), fails2) &&
                                     d2 == |Doomed(old(inbound.entries), Cutoff(now2, keepInbound), fails2)|
    ensures old(prepared.present) ==> prepared.entries == Kept(old(prepared.entries), Cutoff(now3, keepPrepared), fails3) &&
                                      d3 == |Doomed(old(prepared.entries), Cutoff(now3, keepPrepared), fails3)|
    ensures !old(logs.present) ==> logs.entries == old(logs.entries) && d1 == 0
    ensures !old(inbound.present) ==> inbound.entries == old(inbound.entries) && d2 == 0
    ensures !old(prepared.present) ==> prepared.entries == old(prepared.entries) && d3 == 0
    ensures marker == stamp + " deleted_logs=" + NatToString(d1) + " deleted_inbound=" + NatToString(d2)
                      + " deleted_prepared=" + NatToString(d3) + "\n"
    ensures logs.present == old(logs.present) && inbound.present == old(inbound.present)
            && prepared.present == old(prepared.present)
    ensures exit == 0
  {
    d1 := logs.Sweep(Cutoff(now1, keepLogs), fails1);
    d2 := inbound.Sweep(Cutoff(now2, keepInbound), fails2);
    d3 := prepared.Sweep(Cutoff(now3, keepPrepared), fails3);
    marker := stamp + " deleted_logs=" + NatToString(d1) + " deleted_inbound=" + NatToString(d2)
              + " deleted_prepared=" + NatToString(d3) + "\n";
    exit := 0;
  }
}
