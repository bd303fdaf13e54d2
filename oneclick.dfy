/**
 * The one-click daily runner (oneclick_daily_run.py): it runs the primary daily
 * job, checks the outputs with a hard guard, runs the fallback job with the
 * same arguments when the primary fails, and writes RUN_STATUS.txt next to the
 * output.
 *
 * The file system is a map from path to text content. A child process is its
 * exit code and the file map it leaves behind. SHA-256 is the `digest`
 * parameter, applied to file contents.
 */
module Oneclick {
  import opened Wrappers
  import opened Text
  import opened Paths

  type Files = map<string, string>

  datatype Mode = Pre | Post

  function ModeName(m: Mode): string {
    match m
    case Pre => "pre"
    case Post => "post"
  }

  // ---------------------------------------------------------------------------
  // _sanitize_token
  // ---------------------------------------------------------------------------

  /** The characters a file-name token keeps: ASCII letters, digits, '.', '_', '-'. */
  predicate SafeChar(c: char) {
    IsAlnum(c) || c == '.' || c == '_' || c == '-'
  }

  /** The characters stripped from both ends of a token. */
  const Edges := Only({'.', '_', '-'})

  /** Every unsafe character replaced by '_' (the loop of `_sanitize_token`). */
  function Scrub(s: string): (r: string)
    ensures |r| == |s|
  {
    seq(|s|, i requires 0 <= i < |s| => if SafeChar(s[i]) then s[i] else '_')
  }

  function Min(a: nat, b: nat): nat {
    if a <= b then a else b
  }

  /** The token before the cut: the scrubbed text stripped of its edge characters, or "NA". */
  function Uncut(s: string): string {
    var t := StripBy(Scrub(s), Edges);
    if t == "" then "NA" else t
  }

  /** What `_sanitize_token(s, max_len)` returns. */
  function Sanitized(s: string, maxLen: nat): string {
    var u := Uncut(s);
    u[..Min(maxLen, |u|)]
  }

  /** The loop of `_sanitize_token`: each character kept when safe, otherwise replaced by '_'. */
  method ScrubLoop(s: string) returns (out: string)
    ensures out == Scrub(s)
  {
    out := [];
    var i := 0;
    while i < |s|
      invariant 0 <= i <= |s|
      invariant out == Scrub(s[..i])
    {
      var ch := s[i];
      if SafeChar(ch) {
        out := out + [ch];
      } else {
        out := out + ['_'];
      }
      i := i + 1;
    }
    assert s[..i] == s;
  }

  /** `_sanitize_token`: the loop, then the strip of the edge characters, the "NA" default and the cut. */
  method SanitizeToken(s: string, maxLen: nat) returns (t: string)
    ensures t == Sanitized(s, maxLen)
  {
    var out := ScrubLoop(s);
    var stripped := StripBy(out, Edges);
    if stripped == "" {
      stripped := "NA";
    }
    t := stripped[..Min(maxLen, |stripped|)];
  }

  /** Every character of a scrubbed string is safe. */
  lemma ScrubSafe(s: string)
    ensures forall c :: c in Scrub(s) ==> SafeChar(c)
  {
    var sc := Scrub(s);
    forall c | c in sc
      ensures SafeChar(c)
    {
      var i :| 0 <= i < |sc| && sc[i] == c;
    }
  }

  /** The uncut token holds only safe characters and begins with a letter or digit. */
  lemma UncutShape(s: string)
    ensures Uncut(s) != "" && IsAlnum(Uncut(s)[0])
    ensures forall c :: c in Uncut(s) ==> SafeChar(c)
  {
    var sc := Scrub(s);
    var t := StripBy(sc, Edges);
    if t == "" {
      assert Uncut(s) == "NA";
      assert forall c :: c in "NA" ==> c == 'N' || c == 'A';
    } else {
      assert Uncut(s) == t;
      ScrubSafe(s);
      StripByMembers(sc, Edges);
      assert t[0] in t;
      assert !Drops(Edges, t[0]);
    }
  }

  /** A sanitized token is at most `maxLen` long and holds only safe characters. */
  lemma SanitizedSafe(s: string, maxLen: nat)
    ensures |Sanitized(s, maxLen)| <= maxLen
    ensures forall c :: c in Sanitized(s, maxLen) ==> SafeChar(c)
  {
    var u := Uncut(s);
    UncutShape(s);
    var k := Min(maxLen, |u|);
    assert Sanitized(s, maxLen) == u[..k];
    assert u == u[..k] + u[k..];
  }

  /** A sanitized token with room for a character begins with a letter or digit. */
  lemma SanitizedStart(s: string, maxLen: nat)
    requires maxLen > 0
    ensures Sanitized(s, maxLen) != "" && IsAlnum(Sanitized(s, maxLen)[0])
  {
    UncutShape(s);
    assert Sanitized(s, maxLen)[0] == Uncut(s)[0];
  }

  /** Nothing survives the strip: the token is "NA", cut to `maxLen`. */
  lemma SanitizedDefault(s: string, maxLen: nat)
    requires forall i :: 0 <= i < |s| ==> !IsAlnum(s[i])
    ensures Sanitized(s, maxLen) == "NA"[..Min(maxLen, 2)]
  {
    var sc := Scrub(s);
    assert forall i :: 0 <= i < |sc| ==> Drops(Edges, sc[i]);
    var l := DropLeading(sc, Edges);
    DropLeadingSuffix(sc, Edges);
    assert l == [];
  }

  // ---------------------------------------------------------------------------
  // The log file name
  // ---------------------------------------------------------------------------

  /** The log file of one run: `logs/oneclick_<mode>_<input stem>_<stamp>.log`. */
  function LogPath(base: string, mode: Mode, input: string, stamp: string): string {
    JoinPath(JoinPath(base, "logs"),
      "oneclick_" + Sanitized(ModeName(mode), 60) + "_" + Sanitized(PathStem(input), 60) + "_" + stamp + ".log")
  }

  /** Whatever the input is called, its token never adds a directory level to the log name. */
  lemma LogNameHasNoSeparator(input: string, mode: Mode)
    ensures forall c :: c in Sanitized(PathStem(input), 60) ==> !IsSep(c)
    ensures forall c :: c in Sanitized(ModeName(mode), 60) ==> !IsSep(c)
  {
    var stem := PathStem(input);
    var m := ModeName(mode);
    SanitizedSafe(stem, 60);
    SanitizedSafe(m, 60);
    SafeIsNotSep(Sanitized(stem, 60));
    SafeIsNotSep(Sanitized(m, 60));
  }

  lemma SafeIsNotSep(t: string)
    requires forall c :: c in t ==> SafeChar(c)
    ensures forall c :: c in t ==> !IsSep(c)
  {
    forall c | c in t ensures !IsSep(c) {
      assert SafeChar(c);
    }
  }

  // ---------------------------------------------------------------------------
  // _check_outputs_or_raise
  // ---------------------------------------------------------------------------

  /** The file exists and is not empty. */
  predicate Present(files: Files, p: string) {
    p in files && Utf8Size(files[p]) > 0
  }

  predicate OutputsValid(files: Files, output: string, top20: Option<string>) {
    Present(files, output) && (top20.Some? ==> Present(files, top20.value))
  }

  /** `_check_outputs_or_raise`: `None` when it returns, else the message of the RuntimeError it raises. */
  function CheckOutputs(files: Files, output: string, top20: Option<string>): (r: Option<string>)
    ensures r.None? <==> OutputsValid(files, output, top20)
  {
    if output !in files then Some("Output file not created: " + output)
    else if Utf8Size(files[output]) == 0 then Some("Output file is empty: " + output)
    else if top20.Some? && top20.value !in files then Some("Top20 file not created: " + top20.value)
    else if top20.Some? && Utf8Size(files[top20.value]) == 0 then Some("Top20 file is empty: " + top20.value)
    else None
  }

  // ---------------------------------------------------------------------------
  // _build_daily_args
  // ---------------------------------------------------------------------------

  /** The argument list both jobs receive. */
  function BuildDailyArgs(input: string, output: string, top20: Option<string>, mode: Mode): (a: seq<string>)
    ensures |a| == if top20.Some? then 8 else 6
  {
    ["--input", input, "--output", output, "--mode", ModeName(mode)]
      + (if top20.Some? then ["--top20", top20.value] else [])
  }

  /** The value a job reads for `flag` from a flag/value argument list. */
  function ArgValue(args: seq<string>, flag: string): Option<string>
    decreases |args|
  {
    if |args| < 2 then None
    else if args[0] == flag then Some(args[1])
    else ArgValue(args[2..], flag)
  }

  /** A job reads back exactly the paths and the mode the runner passed; `--top20` only when given. */
  lemma DailyArgsRoundTrip(input: string, output: string, top20: Option<string>, mode: Mode)
    ensures var a := BuildDailyArgs(input, output, top20, mode);
            && ArgValue(a, "--input") == Some(input)
            && ArgValue(a, "--output") == Some(output)
            && ArgValue(a, "--mode") == Some(ModeName(mode))
            && ArgValue(a, "--top20") == top20
  {
    var a := BuildDailyArgs(input, output, top20, mode);
    var b := a[2..];
    var c := b[2..];
    var d := c[2..];
    assert a[0] == "--input" && a[1] == input;
    assert b[0] == "--output" && b[1] == output;
    assert c[0] == "--mode" && c[1] == ModeName(mode);
    assert d == if top20.Some? then ["--top20", top20.value] else [];
    assert "--input" != "--output" && "--input" != "--mode" && "--input" != "--top20";
    assert "--output" != "--mode" && "--output" != "--top20" && "--mode" != "--top20" by {
      assert "--output"[2] == 'o' && "--mode"[2] == 'm' && "--top20"[2] == 't';
    }
    assert ArgValue(a, "--output") == ArgValue(b, "--output");
    assert ArgValue(a, "--mode") == ArgValue(b, "--mode") == ArgValue(c, "--mode");
    assert ArgValue(a, "--top20") == ArgValue(b, "--top20") == ArgValue(c, "--top20") == ArgValue(d, "--top20");
  }

  // ---------------------------------------------------------------------------
  // _write_run_status
  // ---------------------------------------------------------------------------

  datatype RunResult = Succeeded | Failed
  datatype Core = PrimaryCore | FallbackCore | NoCore

  function ResultName(r: RunResult): string {
    match r
    case Succeeded => "SUCCESS"
    case Failed => "FAILED"
  }

  function CoreName(c: Core): string {
    match c
    case PrimaryCore => "PRIMARY"
    case FallbackCore => "FALLBACK"
    case NoCore => "NONE"
  }

  /** The fields of RUN_STATUS.txt. */
  datatype RunStatus = RunStatus(
    timestamp: string, mode: Mode, input: string, output: string, top20: Option<string>,
    result: RunResult, core: Core, log: string,
    primaryRc: Option<int>, fallbackRc: Option<int>,
    outExists: bool, outBytes: nat, topExists: bool, topBytes: nat,
    outSha: string, topSha: string,
    primaryError: Option<string>, fallbackError: Option<string>)

  /** The size and digest part of the record, taken from the files as they are when it is written. */
  datatype Observed = Observed(outExists: bool, outBytes: nat, topExists: bool, topBytes: nat,
                               outSha: string, topSha: string)

  /**
   * What `_write_run_status` finds on disk: existence and size of both outputs,
   * and a digest only of a file that exists and is not empty.
   */
  function Observe(files: Files, digest: string -> string, output: string, top20: Option<string>): (o: Observed)
    ensures o.outExists == (output in files)
    ensures o.outBytes > 0 <==> Present(files, output)
    ensures o.outSha == (if Present(files, output) then digest(files[output]) else "")
    ensures o.topExists == (top20.Some? && top20.value in files)
    ensures o.topBytes > 0 <==> top20.Some? && Present(files, top20.value)
    ensures o.topSha == (if top20.Some? && Present(files, top20.value) then digest(files[top20.value]) else "")
  {
    var outExists := output in files;
    var outSize := if outExists then Utf8Size(files[output]) else 0;
    var topExists := top20.Some? && top20.value in files;
    var topSize := if topExists then Utf8Size(files[top20.value]) else 0;
    Observed(outExists, outSize, topExists, topSize,
      if outExists && outSize > 0 then digest(files[output]) else "",
      if top20.Some? && topExists && topSize > 0 then digest(files[top20.value]) else "")
  }

  function OptLines(key: string, v: Option<int>): seq<string> {
    if v.Some? then [key + ": " + IntToString(v.value)] else []
  }

  function ErrorLines(header: string, e: Option<string>): seq<string> {
    if e.Some? && e.value != "" then [header, e.value] else []
  }

  /** The eight lines every status file begins with. */
  function HeadLines(st: RunStatus): seq<string> {
    ["timestamp: " + st.timestamp,
     "mode: " + ModeName(st.mode),
     "input: " + st.input,
     "output: " + st.output,
     "top20: " + st.top20.GetOr(""),
     "result: " + ResultName(st.result),
     "used_core: " + CoreName(st.core),
     "log: " + st.log]
  }

  /** The lines of RUN_STATUS.txt, in the order the runner writes them. */
  function StatusLines(st: RunStatus): seq<string> {
    HeadLines(st) + TailLines(st)
  }

  /** The return codes, sizes, digests and errors after the first eight lines. */
  function TailLines(st: RunStatus): seq<string> {
    OptLines("primary_returncode", st.primaryRc)
    + OptLines("fallback_returncode", st.fallbackRc)
    + ["output_exists: " + BoolToString(st.outExists),
       "output_bytes: " + NatToString(st.outBytes),
       "top20_exists: " + BoolToString(st.topExists),
       "top20_bytes: " + NatToString(st.topBytes),
       "output_sha256: " + st.outSha,
       "top20_sha256: " + st.topSha]
    + ErrorLines("primary_error:", st.primaryError)
    + ErrorLines("fallback_error:", st.fallbackError)
  }

  /** The value of the first `key: value` line, as a reader of the status file finds it. */
  function FieldOf(lines: seq<string>, key: string): Option<string> {
    if lines == [] then None
    else if StartsWith(lines[0], key + ": ") then Some(lines[0][|key| + 2..])
    else FieldOf(lines[1..], key)
  }

  /** Lines that begin with another letter than `key` are passed over. */
  lemma {:induction false} FieldOfSkip(pre: seq<string>, rest: seq<string>, key: string)
    requires key != []
    requires forall i :: 0 <= i < |pre| ==> pre[i] != [] && pre[i][0] != key[0]
    ensures FieldOf(pre + rest, key) == FieldOf(rest, key)
  {
    if pre != [] {
      var p := key + ": ";
      assert p[0] == key[0];
      assert (pre + rest)[0] == pre[0];
      assert !StartsWith(pre[0], p) by {
        if |p| <= |pre[0]| {
          assert pre[0][..|p|][0] == pre[0][0];
        }
      }
      assert (pre + rest)[1..] == pre[1..] + rest;
      FieldOfSkip(pre[1..], rest, key);
    } else {
      assert pre + rest == rest;
    }
  }

  lemma FieldOfHit(key: string, v: string, rest: seq<string>)
    ensures FieldOf([key + ": " + v] + rest, key) == Some(v)
  {
    var line := key + ": " + v;
    assert line[..|key + ": "|] == key + ": ";
    assert line[|key| + 2..] == v;
  }

  /** The result line is the sixth of the head, after five lines that begin with other letters. */
  lemma HeadResult(st: RunStatus, tail: seq<string>)
    ensures FieldOf(HeadLines(st) + tail, "result") == Some(ResultName(st.result))
  {
    var h := HeadLines(st);
    assert h + tail == h[..5] + ([h[5]] + (h[6..] + tail));
    FieldOfSkip(h[..5], [h[5]] + (h[6..] + tail), "result");
    FieldOfHit("result", ResultName(st.result), h[6..] + tail);
  }

  /** The core line is the seventh of the head, after six lines that begin with other letters. */
  lemma HeadCore(st: RunStatus, tail: seq<string>)
    ensures FieldOf(HeadLines(st) + tail, "used_core") == Some(CoreName(st.core))
  {
    var h := HeadLines(st);
    assert h + tail == h[..6] + ([h[6]] + (h[7..] + tail));
    FieldOfSkip(h[..6], [h[6]] + (h[7..] + tail), "used_core");
    FieldOfHit("used_core", CoreName(st.core), h[7..] + tail);
  }

  /** A reader of RUN_STATUS.txt finds the recorded result and core on their own lines. */
  lemma StatusFieldsReadBack(st: RunStatus)
    ensures FieldOf(StatusLines(st), "result") == Some(ResultName(st.result))
    ensures FieldOf(StatusLines(st), "used_core") == Some(CoreName(st.core))
  {
    HeadResult(st, TailLines(st));
    HeadCore(st, TailLines(st));
  }

  /** The text of RUN_STATUS.txt: the lines joined by newlines, with one at the end. */
  function StatusText(st: RunStatus): (t: string)
    ensures t != [] && t[|t| - 1] == '\n'
  {
    Join(StatusLines(st), "\n") + "\n"
  }

  // ---------------------------------------------------------------------------
  // main: primary / fallback state machine
  // ---------------------------------------------------------------------------

  /** The command line of the runner; an empty string stands for an omitted option. */
  datatype Args = Args(mode: Mode, input: string, output: string, top20: string,
                       base: string, fallbackDir: string, dryRun: bool, selfCheck: bool)

  /** What a child process does: its exit code and the files it leaves behind. */
  datatype ChildRun = ChildRun(rc: int, after: Files)

  /** A child process the runner started: the script, its argument list and its directory. */
  datatype Launch = Launch(script: string, args: seq<string>, cwd: string)

  /** The wall clock as the runner formats it: `%Y%m%d_%H%M%S` for the log name, ISO seconds for the status. */
  datatype Clock = Clock(stamp: string, iso: string)

  /** Everything the runner derives from its arguments before it starts a job. */
  datatype Plan = Plan(base: string, fallbackDir: string, top20: Option<string>,
                       statusPath: string, log: string, primaryScript: string, fallbackScript: string)

  /** The arguments, the derived plan, the clock and the digest of one invocation. */
  datatype Env = Env(a: Args, p: Plan, clock: Clock, digest: string -> string)

  /** The outcome of one invocation: exit code, the children started, the final files and the status written. */
  datatype Outcome = Outcome(exit: int, launches: seq<Launch>, files: Files, status: Option<RunStatus>)

  /** The test input `--self_check` creates when the input is missing. */
  const SelfCheckCsv: string :=
    "code,name,market,close,volume,trade_value,turnover,short_used_ratio,margin_used_ratio\n"
    + "2330,TSMC,TWSE,600,1000000,600000000,0.08,0.05,0.20\n"
    + "2317,HonHai,TWSE,120,2000000,240000000,0.05,0.02,0.10\n"
    + "6488,GlobalWafers,TWO,900,300000,270000000,0.10,0.12,0.45\n"

  const ScriptName: string := "daily_auto_run_final.py"

  function PlanOf(a: Args, scriptDir: string, clock: Clock): (p: Plan)
    ensures p.top20.Some? <==> Strip(a.top20) != ""
    ensures p.primaryScript == JoinPath(p.base, ScriptName)
    ensures p.fallbackScript == JoinPath(p.fallbackDir, ScriptName)
    ensures p.statusPath == JoinPath(PathParent(a.output), "RUN_STATUS.txt")
  {
    var base := if Strip(a.base) != "" then a.base else scriptDir;
    var fallbackDir := if Strip(a.fallbackDir) != "" then a.fallbackDir else JoinPath(base, "fallback_core");
    Plan(base, fallbackDir,
      if Strip(a.top20) != "" then Some(a.top20) else None,
      JoinPath(PathParent(a.output), "RUN_STATUS.txt"),
      LogPath(base, a.mode, a.input, clock.stamp),
      JoinPath(base, ScriptName),
      JoinPath(fallbackDir, ScriptName))
  }

  function DailyArgs(e: Env): seq<string> {
    BuildDailyArgs(e.a.input, e.a.output, e.p.top20, e.a.mode)
  }

  /** The record `_write_run_status` writes when called with these outcome fields. */
  function StatusFor(e: Env, files: Files, r: RunResult, c: Core, rc1: Option<int>, rc2: Option<int>,
                     e1: Option<string>, e2: Option<string>): RunStatus
  {
    var o := Observe(files, e.digest, e.a.output, e.p.top20);
    RunStatus(e.clock.iso, e.a.mode, e.a.input, e.a.output, e.p.top20, r, c, e.p.log, rc1, rc2,
      o.outExists, o.outBytes, o.topExists, o.topBytes, o.outSha, o.topSha, e1, e2)
  }

  /** RUN_STATUS.txt written over whatever was at its path. */
  function Finish(e: Env, files: Files, st: RunStatus, exit: int, launches: seq<Launch>): Outcome {
    Outcome(exit, launches, files[e.p.statusPath := StatusText(st)], Some(st))
  }

  function DryRunMessage(problems: seq<string>): string {
    "DRY_RUN failed:\n" + Join(seq(|problems|, i requires 0 <= i < |problems| => "- " + problems[i]), "\n")
  }

  function DryRunProblems(e: Env, files: Files): seq<string> {
    (if e.p.primaryScript in files then [] else ["Primary script missing: " + e.p.primaryScript])
    + (if e.a.input in files then [] else ["Input missing: " + e.a.input])
  }

  /** `--dry_run`: nothing is started; only the status file is written. */
  function DryRun(e: Env, files: Files): Outcome {
    var problems := DryRunProblems(e, files);
    if problems == [] then
      Finish(e, files, StatusFor(e, files, Succeeded, NoCore, None, None, Some("DRY_RUN: OK (no execution)"), None), 0, [])
    else
      Finish(e, files, StatusFor(e, files, Failed, NoCore, None, None, Some(DryRunMessage(problems)), None), 10, [])
  }

  /** `--self_check`: a missing input is created with the test rows. */
  function SelfChecked(a: Args, files: Files): Files {
    if a.selfCheck && a.input !in files then files[a.input := SelfCheckCsv] else files
  }

  /** The fallback has run: its result decides. */
  function AfterFallback(e: Env, rc1: int, fallback: ChildRun): Outcome {
    var l1 := Launch(e.p.primaryScript, DailyArgs(e), e.p.base);
    var l2 := Launch(e.p.fallbackScript, DailyArgs(e), e.p.fallbackDir);
    var files := fallback.after;
    if fallback.rc == 0 && CheckOutputs(files, e.a.output, e.p.top20).None? then
      Finish(e, files, StatusFor(e, files, Succeeded, FallbackCore, Some(rc1), Some(fallback.rc), None, None), 0, [l1, l2])
    else
      Finish(e, files, StatusFor(e, files, Failed, NoCore, Some(rc1), Some(fallback.rc),
                                 Some("Primary failed or output invalid (returncode=" + IntToString(rc1) + ")"),
                                 Some("Fallback failed or output invalid (returncode=" + IntToString(fallback.rc) + ")")),
             3, [l1, l2])
  }

  /** The primary has run: accept its outputs, or go to the fallback. */
  function AfterPrimary(e: Env, primary: ChildRun, fallback: ChildRun): Outcome {
    var l1 := Launch(e.p.primaryScript, DailyArgs(e), e.p.base);
    var files := primary.after;
    if primary.rc == 0 && CheckOutputs(files, e.a.output, e.p.top20).None? then
      Finish(e, files, StatusFor(e, files, Succeeded, PrimaryCore, Some(primary.rc), None, None, None), 0, [l1])
    else if e.p.fallbackScript !in files then
      Finish(e, files, StatusFor(e, files, Failed, NoCore, Some(primary.rc), None, None,
                                 Some("Fallback script not found: " + e.p.fallbackScript)), 2, [l1])
    else
      AfterFallback(e, primary.rc, fallback)
  }

  /** A real run: the primary script must exist. */
  function Execute(e: Env, files: Files, primary: ChildRun, fallback: ChildRun): Outcome {
    if e.p.primaryScript !in files then
      Finish(e, files, StatusFor(e, files, Failed, NoCore, None, None,
                                 Some("Primary script not found: " + e.p.primaryScript), None), 1, [])
    else
      AfterPrimary(e, primary, fallback)
  }

  /** The runner's behaviour from its arguments, the clock and what each child does. */
  function Run(a: Args, scriptDir: string, clock: Clock, digest: string -> string,
               files: Files, primary: ChildRun, fallback: ChildRun): Outcome
  {
    if Strip(a.input) == "" || Strip(a.output) == "" then Outcome(1, [], files, None)
    else
      var e := Env(a, PlanOf(a, scriptDir, clock), clock, digest);
      if a.dryRun then DryRun(e, files) else Execute(e, SelfChecked(a, files), primary, fallback)
  }

  /** The working environment of the runner: the files it sees and the children it has started. */
  class Workspace {
    var files: Files
    var launches: seq<Launch>

    constructor (files0: Files)
      ensures files == files0 && launches == []
    {
      files := files0;
      launches := [];
    }

    /** `_write_run_status`: the record is taken from the files as they are now, then written. */
    method WriteStatus(e: Env, r: RunResult, c: Core, rc1: Option<int>, rc2: Option<int>,
                       e1: Option<string>, e2: Option<string>) returns (st: RunStatus)
      modifies this
      ensures st == StatusFor(e, old(files), r, c, rc1, rc2, e1, e2)
      ensures files == old(files)[e.p.statusPath := StatusText(st)] && launches == old(launches)
    {
      st := StatusFor(e, files, r, c, rc1, rc2, e1, e2);
      files := files[e.p.statusPath := StatusText(st)];
    }

    /** `_run_subprocess`: the child is started and its exit code returned. */
    method RunChild(script: string, args: seq<string>, cwd: string, child: ChildRun) returns (rc: int)
      modifies this
      ensures rc == child.rc && files == child.after && launches == old(launches) + [Launch(script, args, cwd)]
    {
      launches := launches + [Launch(script, args, cwd)];
      files := child.after;
      rc := child.rc;
    }

    method DryRunStep(e: Env) returns (exit: int)
      modifies this
      ensures var o := DryRun(e, old(files));
              exit == o.exit && files == o.files && launches == old(launches) + o.launches
    {
      var problems: seq<string> := [];
      if e.p.primaryScript !in files {
        problems := problems + ["Primary script missing: " + e.p.primaryScript];
      }
      if e.a.input !in files {
        problems := problems + ["Input missing: " + e.a.input];
      }
      assert problems == DryRunProblems(e, files);
      if problems == [] {
        var _ := WriteStatus(e, Succeeded, NoCore, None, None, Some("DRY_RUN: OK (no execution)"), None);
        return 0;
      }
      var _ := WriteStatus(e, Failed, NoCore, None, None, Some(DryRunMessage(problems)), None);
      return 10;
    }

    method FallbackStep(e: Env, rc1: int, fallback: ChildRun) returns (exit: int)
      modifies this
      ensures var o := AfterFallback(e, rc1, fallback);
              exit == o.exit && files == o.files && launches == old(launches) + [o.launches[1]]
    {
      var rc2 := RunChild(e.p.fallbackScript, DailyArgs(e), e.p.fallbackDir, fallback);
      if rc2 == 0 && CheckOutputs(files, e.a.output, e.p.top20).None? {
        var _ := WriteStatus(e, Succeeded, FallbackCore, Some(rc1), Some(rc2), None, None);
        return 0;
      }
      var _ := WriteStatus(e, Failed, NoCore, Some(rc1), Some(rc2),
        Some("Primary failed or output invalid (returncode=" + IntToString(rc1) + ")"),
        Some("Fallback failed or output invalid (returncode=" + IntToString(rc2) + ")"));
      return 3;
    }

    method PrimaryStep(e: Env, primary: ChildRun, fallback: ChildRun) returns (exit: int)
      modifies this
      ensures var o := AfterPrimary(e, primary, fallback);
              exit == o.exit && files == o.files && launches == old(launches) + o.launches
    {
      var rc1 := RunChild(e.p.primaryScript, DailyArgs(e), e.p.base, primary);
      if rc1 == 0 && CheckOutputs(files, e.a.output, e.p.top20).None? {
        var _ := WriteStatus(e, Succeeded, PrimaryCore, Some(rc1), None, None, None);
        return 0;
      }
      if e.p.fallbackScript !in files {
        var _ := WriteStatus(e, Failed, NoCore, Some(rc1), None, None, Some("Fallback script not found: " + e.p.fallbackScript));
        return 2;
      }
      ghost var before := launches;
      exit := FallbackStep(e, rc1, fallback);
      ghost var o := AfterFallback(e, rc1, fallback);
      assert o == AfterPrimary(e, primary, fallback);
      assert o.launches == [Launch(e.p.primaryScript, DailyArgs(e), e.p.base), o.launches[1]];
      assert before == old(launches) + [o.launches[0]];
    }

    /** `--self_check`: a missing input is created with the test rows. */
    method SelfCheckStep(a: Args)
      modifies this
      ensures files == SelfChecked(a, old(files)) && launches == old(launches)
    {
      if a.selfCheck && a.input !in files {
        files := files[a.input := SelfCheckCsv];
      }
    }

    /** The run proper, once the arguments are checked and the plan is made. */
    method ExecuteStep(e: Env, primary: ChildRun, fallback: ChildRun) returns (exit: int)
      modifies this
      ensures var o := Execute(e, old(files), primary, fallback);
              exit == o.exit && files == o.files && launches == old(launches) + o.launches
    {
      if e.p.primaryScript !in files {
        var _ := WriteStatus(e, Failed, NoCore, None, None, Some("Primary script not found: " + e.p.primaryScript), None);
        return 1;
      }
      exit := PrimaryStep(e, primary, fallback);
    }

    /** `main`: argument check, plan, then the dry run or the self check and the two jobs. */
    method Invoke(a: Args, scriptDir: string, clock: Clock, digest: string -> string,
                primary: ChildRun, fallback: ChildRun) returns (exit: int)
      modifies this
      ensures var o := Run(a, scriptDir, clock, digest, old(files), primary, fallback);
              exit == o.exit && files == o.files && launches == old(launches) + o.launches
    {
      if Strip(a.input) == "" || Strip(a.output) == "" {
        return 1;
      }
      var e := Env(a, PlanOf(a, scriptDir, clock), clock, digest);
      if a.dryRun {
        exit := DryRunStep(e);
        return;
      }
      SelfCheckStep(a);
      exit := ExecuteStep(e, primary, fallback);
    }
  }

  // ---------------------------------------------------------------------------
  // Properties of the state machine
  // ---------------------------------------------------------------------------

  /** A primary that exits 0 with valid outputs is recorded as SUCCESS/PRIMARY, and the fallback never starts. */
  lemma PrimarySuccess(e: Env, primary: ChildRun, fallback: ChildRun)
    requires primary.rc == 0 && OutputsValid(primary.after, e.a.output, e.p.top20)
    ensures var o := AfterPrimary(e, primary, fallback);
            && o.exit == 0 && |o.launches| == 1
            && o.status == Some(StatusFor(e, primary.after, Succeeded, PrimaryCore, Some(0), None, None, None))
  {
  }

  /**
   * The fallback starts exactly when the primary has failed or left invalid
   * outputs and the fallback script is there, and it gets the very argument
   * list the primary got.
   */
  lemma FallbackSameArgs(e: Env, primary: ChildRun, fallback: ChildRun)
    ensures var o := AfterPrimary(e, primary, fallback);
            |o.launches| == 2 ==>
              && o.launches[0] == Launch(e.p.primaryScript, DailyArgs(e), e.p.base)
              && o.launches[1] == Launch(e.p.fallbackScript, DailyArgs(e), e.p.fallbackDir)
              && !(primary.rc == 0 && OutputsValid(primary.after, e.a.output, e.p.top20))
              && e.p.fallbackScript in primary.after
    ensures var o := AfterPrimary(e, primary, fallback);
            !(primary.rc == 0 && OutputsValid(primary.after, e.a.output, e.p.top20))
            && e.p.fallbackScript in primary.after ==>
              && |o.launches| == 2
              && o.launches[0] == Launch(e.p.primaryScript, DailyArgs(e), e.p.base)
              && o.launches[1] == Launch(e.p.fallbackScript, DailyArgs(e), e.p.fallbackDir)
  {
  }

  /** Exit 2 happens exactly when the primary failed and there is no fallback script; it is recorded FAILED/NONE. */
  lemma FallbackMissing(e: Env, primary: ChildRun, fallback: ChildRun)
    ensures var o := AfterPrimary(e, primary, fallback);
            o.exit == 2 <==>
              !(primary.rc == 0 && OutputsValid(primary.after, e.a.output, e.p.top20))
              && e.p.fallbackScript !in primary.after
    ensures var o := AfterPrimary(e, primary, fallback);
            o.exit == 2 ==> |o.launches| == 1 && o.status.Some? && o.status.value.result == Failed
                            && o.status.value.core == NoCore && o.status.value.primaryRc == Some(primary.rc)
  {
  }

  /**
   * After a fallback run its result decides: SUCCESS/FALLBACK with both exit
   * codes, or FAILED/NONE with both errors and exit 3.
   */
  lemma FallbackDecides(e: Env, rc1: int, fallback: ChildRun)
    ensures var o := AfterFallback(e, rc1, fallback);
            && |o.launches| == 2
            && o.status.Some?
            && o.status.value.primaryRc == Some(rc1) && o.status.value.fallbackRc == Some(fallback.rc)
            && (o.exit == 0 <==> fallback.rc == 0 && OutputsValid(fallback.after, e.a.output, e.p.top20))
            && (o.exit == 0 ==> o.status.value.result == Succeeded && o.status.value.core == FallbackCore)
            && (o.exit != 0 ==> o.exit == 3 && o.status.value.result == Failed && o.status.value.core == NoCore
                                && o.status.value.primaryError.Some? && o.status.value.fallbackError.Some?)
  {
  }

  /**
   * A real run that exits 0 leaves both declared outputs present and non-empty,
   * and the status records SUCCESS, a core other than NONE, and the digest of
   * the output that core wrote.
   */
  lemma SuccessMeansValidOutputs(e: Env, files: Files, primary: ChildRun, fallback: ChildRun)
    ensures var o := Execute(e, files, primary, fallback);
            o.exit == 0 ==>
              && o.status.Some? && o.status.value.result == Succeeded && o.status.value.core != NoCore
              && var made := if o.status.value.core == PrimaryCore then primary.after else fallback.after;
                 && OutputsValid(made, e.a.output, e.p.top20)
                 && o.status.value.outSha == e.digest(made[e.a.output])
                 && OutputsValid(o.files, e.a.output, e.p.top20)
  {
    if e.p.primaryScript in files {
      assert Execute(e, files, primary, fallback) == AfterPrimary(e, primary, fallback);
      PrimaryPathValid(e, primary, fallback);
    }
  }

  /** The part of `SuccessMeansValidOutputs` after the primary has run. */
  lemma PrimaryPathValid(e: Env, primary: ChildRun, fallback: ChildRun)
    ensures var o := AfterPrimary(e, primary, fallback);
            o.exit == 0 ==>
              && o.status.Some? && o.status.value.result == Succeeded && o.status.value.core != NoCore
              && var made := if o.status.value.core == PrimaryCore then primary.after else fallback.after;
                 && OutputsValid(made, e.a.output, e.p.top20)
                 && o.status.value.outSha == e.digest(made[e.a.output])
                 && OutputsValid(o.files, e.a.output, e.p.top20)
  {
    var l1 := Launch(e.p.primaryScript, DailyArgs(e), e.p.base);
    if primary.rc == 0 && CheckOutputs(primary.after, e.a.output, e.p.top20).None? {
      var st := StatusFor(e, primary.after, Succeeded, PrimaryCore, Some(primary.rc), None, None, None);
      assert AfterPrimary(e, primary, fallback) == Finish(e, primary.after, st, 0, [l1]);
      FinishKeepsOutputs(e, primary.after, st, 0, [l1]);
    } else if e.p.fallbackScript in primary.after {
      assert AfterPrimary(e, primary, fallback) == AfterFallback(e, primary.rc, fallback);
      FallbackPathValid(e, primary.rc, fallback);
    }
  }

  /** The part of `SuccessMeansValidOutputs` after the fallback has run. */
  lemma FallbackPathValid(e: Env, rc1: int, fallback: ChildRun)
    ensures var o := AfterFallback(e, rc1, fallback);
            o.exit == 0 ==>
              && o.status.Some? && o.status.value.result == Succeeded && o.status.value.core == FallbackCore
              && OutputsValid(fallback.after, e.a.output, e.p.top20)
              && o.status.value.outSha == e.digest(fallback.after[e.a.output])
              && OutputsValid(o.files, e.a.output, e.p.top20)
  {
    if fallback.rc == 0 && CheckOutputs(fallback.after, e.a.output, e.p.top20).None? {
      var l1 := Launch(e.p.primaryScript, DailyArgs(e), e.p.base);
      var l2 := Launch(e.p.fallbackScript, DailyArgs(e), e.p.fallbackDir);
      var st := StatusFor(e, fallback.after, Succeeded, FallbackCore, Some(rc1), Some(fallback.rc), None, None);
      assert AfterFallback(e, rc1, fallback) == Finish(e, fallback.after, st, 0, [l1, l2]);
      FinishKeepsOutputs(e, fallback.after, st, 0, [l1, l2]);
    }
  }

  /** Writing the status file leaves valid outputs valid, even when it is written over one of them. */
  lemma FinishKeepsOutputs(e: Env, files: Files, st: RunStatus, exit: int, launches: seq<Launch>)
    requires OutputsValid(files, e.a.output, e.p.top20)
    ensures OutputsValid(Finish(e, files, st, exit, launches).files, e.a.output, e.p.top20)
  {
    StatusTextSize(st);
  }

  /** The status text is never empty, so writing it cannot make an output look empty. */
  lemma StatusTextSize(st: RunStatus)
    ensures Utf8Size(StatusText(st)) > 0
  {
  }

  /** The exit codes the runner uses; 10 only for a dry run, 0 without any launch only for a dry run. */
  lemma ExitCodes(a: Args, scriptDir: string, clock: Clock, digest: string -> string,
                  files: Files, primary: ChildRun, fallback: ChildRun)
    ensures var o := Run(a, scriptDir, clock, digest, files, primary, fallback);
            && o.exit in {0, 1, 2, 3, 10}
            && (o.exit == 10 ==> a.dryRun)
            && (a.dryRun ==> o.launches == [])
            && (o.exit == 0 && !a.dryRun ==> |o.launches| >= 1)
  {
    if Strip(a.input) != "" && Strip(a.output) != "" {
      var e := Env(a, PlanOf(a, scriptDir, clock), clock, digest);
      if a.dryRun {
        DryRunExits(e, files);
      } else {
        ExecuteExits(e, SelfChecked(a, files), primary, fallback);
      }
    }
  }

  lemma DryRunExits(e: Env, files: Files)
    ensures DryRun(e, files).exit in {0, 10} && DryRun(e, files).launches == []
  {
  }

  lemma ExecuteExits(e: Env, files: Files, primary: ChildRun, fallback: ChildRun)
    ensures var o := Execute(e, files, primary, fallback);
            o.exit in {0, 1, 2, 3} && (o.exit == 0 ==> |o.launches| >= 1)
  {
  }
}
