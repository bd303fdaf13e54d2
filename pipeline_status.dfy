/**
 * The pipeline status document (app/ops/update_pipeline_status.py): a JSON
 * object with three header keys and one object per stage, updated by one stage
 * at a time, with an overall status computed by precedence, and rendered to a
 * text file in a fixed stage order. Both files are written with a bounded
 * retry.
 *
 * `json.loads` and `json.dumps` are the parameters `parse` and `dump`; `parse`
 * answers `None` where `json.loads` raises.
 */
module PipelineStatus {
  import opened Wrappers
  import opened Text
  import opened JsonValue
  import opened Paths
  import opened Seqs

  type Files = map<string, string>

  // ---------------------------------------------------------------------------
  // _load_json
  // ---------------------------------------------------------------------------

  /** `_load_json`: a missing or unparsable file reads as the empty object. */
  function LoadJson(files: Files, path: string, parse: string -> Option<Json>): (j: Json)
    ensures path !in files ==> j == JObj([])
    ensures path in files && parse(files[path]).None? ==> j == JObj([])
    ensures path in files && parse(files[path]).Some? ==> j == parse(files[path]).value
  {
    if path !in files then JObj([])
    else match parse(files[path])
      case Some(j) => j
      case None => JObj([])
  }

  // ---------------------------------------------------------------------------
  // _atomic_write_text
  // ---------------------------------------------------------------------------

  /** One attempt at writing the temporary file and moving it over the target. */
  datatype Attempt = Ok | Fail(error: string)

  /** How `_atomic_write_text` ends: written at the given attempt, the last error raised, or no attempt at all. */
  datatype WriteResult = Written(tries: nat) | Raised(error: string, tries: nat) | NoAttempt

  /** The outcome of the attempts `from` .. `retries - 1`, after `from` failed ones, the last with error `last`. */
  function WriteFrom(retries: int, attempt: nat -> Attempt, from: nat, last: Option<string>): WriteResult
    decreases retries - from
  {
    if from >= retries then
      if last.Some? then Raised(last.value, from) else NoAttempt
    else match attempt(from)
      case Ok => Written(from + 1)
      case Fail(e) => WriteFrom(retries, attempt, from + 1, Some(e))
  }

  function WriteOutcome(retries: int, attempt: nat -> Attempt): WriteResult {
    WriteFrom(retries, attempt, 0, None)
  }

  /**
   * At most `retries` attempts are made: the first successful one ends the
   * loop; when all fail, the error of the last one is raised; with no attempt
   * nothing is written and nothing raised.
   */
  lemma WriteOutcomeMeaning(retries: int, attempt: nat -> Attempt)
    ensures var r := WriteOutcome(retries, attempt);
            && (r.Written? ==> 1 <= r.tries <= retries && attempt(r.tries - 1).Ok?
                               && forall j :: 0 <= j < r.tries - 1 ==> attempt(j).Fail?)
            && (r.Raised? ==> r.tries == retries && (forall j :: 0 <= j < retries ==> attempt(j).Fail?)
                              && attempt(retries - 1) == Fail(r.error))
            && (r.NoAttempt? <==> retries <= 0)
  {
    WriteFromMeaning(retries, attempt, 0, None);
  }

  lemma {:induction false} WriteFromMeaning(retries: int, attempt: nat -> Attempt, from: nat, last: Option<string>)
    requires from <= retries || from == 0
    requires forall j :: 0 <= j < from ==> attempt(j).Fail?
    requires last == if from == 0 then None else Some(attempt(from - 1).error)
    ensures var r := WriteFrom(retries, attempt, from, last);
            && (r.Written? ==> from + 1 <= r.tries <= retries && attempt(r.tries - 1).Ok?
                               && forall j :: 0 <= j < r.tries - 1 ==> attempt(j).Fail?)
            && (r.Raised? ==> r.tries == retries && (forall j :: 0 <= j < retries ==> attempt(j).Fail?)
                              && attempt(retries - 1) == Fail(r.error))
            && (r.NoAttempt? <==> retries <= 0)
    decreases retries - from
  {
    if from < retries && attempt(from).Fail? {
      WriteFromMeaning(retries, attempt, from + 1, Some(attempt(from).error));
    }
  }

  // ---------------------------------------------------------------------------
  // _compute_overall
  // ---------------------------------------------------------------------------

  /** The status a stage contributes: an object with a "status" whose upper-cased, trimmed text is not empty. */
  function StageStatus(v: Json): (r: Option<string>)
    ensures r.Some? ==> r.value != ""
  {
    match v
    case JObj(sd) =>
      (match Lookup(sd, "status")
       case Some(x) => var s := Strip(Upper(Str(x))); if s != "" then Some(s) else None
       case None => None)
    case _ => None
  }

  function FieldStatus(f: Field): Option<string> {
    StageStatus(f.val)
  }

  /** The statuses of the entries of `doc`, in its order. */
  function StageStatuses(doc: seq<Field>): seq<string> {
    FilterMap(doc, FieldStatus)
  }

  /** A status is collected exactly when some entry contributes it. */
  lemma StageStatusesMembers(doc: seq<Field>, s: string)
    ensures s in StageStatuses(doc) <==> exists i :: 0 <= i < |doc| && StageStatus(doc[i].val) == Some(s)
  {
    FilterMapMembers(doc, FieldStatus, s);
  }

  /** `_compute_overall`: FAILED before RUNNING before SUCCESS; RUNNING when no stage has a status. */
  function ComputeOverall(doc: seq<Field>): (r: string)
    ensures r == "FAILED" || r == "RUNNING" || r == "SUCCESS"
  {
    var ss := StageStatuses(doc);
    if "FAILED" in ss then "FAILED"
    else if "RUNNING" in ss then "RUNNING"
    else if ss != [] then "SUCCESS"
    else "RUNNING"
  }

  predicate SomeStageIs(doc: seq<Field>, s: string) {
    exists i :: 0 <= i < |doc| && StageStatus(doc[i].val) == Some(s)
  }

  predicate SomeStageHasStatus(doc: seq<Field>) {
    exists i :: 0 <= i < |doc| && StageStatus(doc[i].val).Some?
  }

  /** The precedence of `_compute_overall`, in both directions. */
  lemma OverallPrecedence(doc: seq<Field>)
    ensures ComputeOverall(doc) == "FAILED" <==> SomeStageIs(doc, "FAILED")
    ensures ComputeOverall(doc) == "RUNNING" <==>
              !SomeStageIs(doc, "FAILED") && (SomeStageIs(doc, "RUNNING") || !SomeStageHasStatus(doc))
    ensures ComputeOverall(doc) == "SUCCESS" <==>
              SomeStageHasStatus(doc) && !SomeStageIs(doc, "FAILED") && !SomeStageIs(doc, "RUNNING")
  {
    var ss := StageStatuses(doc);
    StageStatusesMembers(doc, "FAILED");
    StageStatusesMembers(doc, "RUNNING");
    if SomeStageHasStatus(doc) {
      var i :| 0 <= i < |doc| && StageStatus(doc[i].val).Some?;
      StageStatusesMembers(doc, StageStatus(doc[i].val).value);
    }
    if ss != [] {
      StageStatusesMembers(doc, ss[0]);
    }
  }

  // ---------------------------------------------------------------------------
  // _render_txt
  // ---------------------------------------------------------------------------

  const StageOrder: seq<string> := ["fetch", "prepare", "quality", "oneclick", "report", "archive", "overall"]
  const HeaderKeys: seq<string> := ["updated_at", "run_id", "overall_status"]

  /** `str(d.get(k, ""))`. */
  function GetText(fs: seq<Field>, k: string): string {
    match Lookup(fs, k)
    case Some(v) => Str(v)
    case None => ""
  }

  function HeaderLines(doc: seq<Field>): seq<string> {
    ["updated_at: " + GetText(doc, "updated_at"),
     "run_id: " + GetText(doc, "run_id"),
     "overall_status: " + GetText(doc, "overall_status"),
     ""]
  }

  /** One rendered stage of the text file. */
  datatype Section = Section(stage: string, body: seq<Field>)

  /** The detail line of one key of a stage; "status" and "at" are in the title instead. */
  function DetailLine(f: Field): seq<string> {
    if f.key == "status" || f.key == "at" then [] else ["  " + f.key + ": " + Str(f.val)]
  }

  function Title(s: Section): string {
    "[" + s.stage + "] status=" + GetText(s.body, "status") + " at=" + GetText(s.body, "at")
  }

  function Block(s: Section): seq<string> {
    [Title(s)] + FlatMap(s.body, DetailLine) + [""]
  }

  /** A known stage is shown when the document holds it as an object. */
  function KnownSection(doc: seq<Field>, stage: string): Option<Section> {
    match Lookup(doc, stage)
    case Some(JObj(body)) => Some(Section(stage, body))
    case _ => None
  }

  /** An entry the second loop shows: not a header key, not a known stage, an object with a "status". */
  predicate OtherStage(f: Field) {
    f.key !in HeaderKeys && f.key !in StageOrder && f.val.JObj? && "status" in Keys(f.val.fields)
  }

  function OtherSection(f: Field): Option<Section> {
    if OtherStage(f) then Some(Section(f.key, f.val.fields)) else None
  }

  function KnownSections(doc: seq<Field>): seq<Section> {
    FilterMap(StageOrder, s => KnownSection(doc, s))
  }

  function OtherSections(doc: seq<Field>): seq<Section> {
    FilterMap(doc, OtherSection)
  }

  /** The stages the text file shows, in the order it shows them. */
  function Sections(doc: seq<Field>): seq<Section> {
    KnownSections(doc) + OtherSections(doc)
  }

  function RenderLines(doc: seq<Field>): seq<string> {
    HeaderLines(doc) + FlatMap(Sections(doc), Block)
  }

  /** `_render_txt`: the lines joined, trailing blanks removed, one newline added. */
  function RenderText(doc: seq<Field>): (t: string)
    ensures |t| >= 1 && t[|t| - 1] == '\n'
    ensures |t| >= 2 ==> !IsSpace(t[|t| - 2])
  {
    Terminated(Join(RenderLines(doc), "\n"))
  }

  /** `s.rstrip() + "\n"`: one newline, right after the last character that is not a blank. */
  function Terminated(s: string): (t: string)
    ensures |t| >= 1 && t[|t| - 1] == '\n'
    ensures |t| >= 2 ==> !IsSpace(t[|t| - 2])
  {
    var body := RStrip(s);
    assert |body| >= 1 ==> (body + "\n")[|body| - 1] == body[|body| - 1];
    body + "\n"
  }

  /** The known stages shown are exactly those the document holds as objects. */
  lemma KnownSectionsShape(doc: seq<Field>, s: Section)
    ensures s in KnownSections(doc) <==> s.stage in StageOrder && Lookup(doc, s.stage) == Some(JObj(s.body))
  {
    var g := (st: string) => KnownSection(doc, st);
    FilterMapMembers(StageOrder, g, s);
    if s.stage in StageOrder && Lookup(doc, s.stage) == Some(JObj(s.body)) {
      var i :| 0 <= i < |StageOrder| && StageOrder[i] == s.stage;
      assert g(StageOrder[i]) == Some(s);
    }
  }

  /** The other stages shown are exactly the object entries with a "status" that are neither header keys nor known stages. */
  lemma OtherSectionsShape(doc: seq<Field>, s: Section)
    ensures s in OtherSections(doc) <==>
              exists i :: 0 <= i < |doc| && OtherStage(doc[i]) && s == Section(doc[i].key, doc[i].val.fields)
  {
    FilterMapMembers(doc, OtherSection, s);
  }

  /** No header key is ever shown as a stage, and every known stage comes before every other one. */
  lemma SectionsOrder(doc: seq<Field>)
    ensures forall s :: s in Sections(doc) ==> s.stage !in HeaderKeys
    ensures forall i, j :: 0 <= i < j < |Sections(doc)| && Sections(doc)[i].stage !in StageOrder ==>
              Sections(doc)[j].stage !in StageOrder
  {
    KnownStages(doc);
    OtherStages(doc);
    KnownFirst(KnownSections(doc), OtherSections(doc));
  }

  lemma KnownStages(doc: seq<Field>)
    ensures forall s :: s in KnownSections(doc) ==> s.stage in StageOrder && s.stage !in HeaderKeys
  {
    forall s | s in KnownSections(doc) ensures s.stage in StageOrder && s.stage !in HeaderKeys {
      KnownSectionsShape(doc, s);
    }
  }

  lemma OtherStages(doc: seq<Field>)
    ensures forall s :: s in OtherSections(doc) ==> s.stage !in StageOrder && s.stage !in HeaderKeys
  {
    forall s | s in OtherSections(doc) ensures s.stage !in StageOrder && s.stage !in HeaderKeys {
      OtherSectionsShape(doc, s);
    }
  }

  /** Sections from the known list followed by sections from outside it: no known one comes after another. */
  lemma KnownFirst(k: seq<Section>, o: seq<Section>)
    requires forall s :: s in k ==> s.stage in StageOrder && s.stage !in HeaderKeys
    requires forall s :: s in o ==> s.stage !in StageOrder && s.stage !in HeaderKeys
    ensures forall s :: s in k + o ==> s.stage !in HeaderKeys
    ensures forall i, j :: 0 <= i < j < |k + o| && (k + o)[i].stage !in StageOrder ==> (k + o)[j].stage !in StageOrder
  {
    var all := k + o;
    forall i, j | 0 <= i < j < |all| && all[i].stage !in StageOrder
      ensures all[j].stage !in StageOrder
    {
      if j >= |k| {
        assert all[j] == o[j - |k|];
      }
    }
  }

  /** `_render_txt` as the source writes it: the header lines, then two loops over the stages. */
  method RenderTxt(doc: seq<Field>) returns (text: string)
    ensures text == RenderText(doc)
  {
    var lines: seq<string> := [];
    lines := lines + ["updated_at: " + GetText(doc, "updated_at")];
    lines := lines + ["run_id: " + GetText(doc, "run_id")];
    lines := lines + ["overall_status: " + GetText(doc, "overall_status")];
    lines := lines + [""];
    assert lines == HeaderLines(doc);
    lines := AppendKnown(lines, doc);
    lines := AppendOthers(lines, doc);
    FlatMapAppend(KnownSections(doc), OtherSections(doc), Block);
    AppendAssoc(HeaderLines(doc), FlatMap(KnownSections(doc), Block), FlatMap(OtherSections(doc), Block));
    assert lines == RenderLines(doc);
    text := RStrip(Join(lines, "\n")) + "\n";
  }

  /** The first loop of `_render_txt`: the known stages in their fixed order. */
  method AppendKnown(lines0: seq<string>, doc: seq<Field>) returns (lines: seq<string>)
    ensures lines == lines0 + FlatMap(KnownSections(doc), Block)
  {
    lines := lines0;
    ghost var g := (st: string) => KnownSection(doc, st);
    var i := 0;
    while i < |StageOrder|
      invariant 0 <= i <= |StageOrder|
      invariant lines == lines0 + FlatMap(FilterMap(StageOrder[..i], g), Block)
    {
      var stage := StageOrder[i];
      ghost var before := FilterMap(StageOrder[..i], g);
      FilterMapTake(StageOrder, i, g);
      match Lookup(doc, stage) {
        case Some(JObj(body)) =>
          var sec := Section(stage, body);
          assert g(stage) == Some(sec);
          assert FilterMap(StageOrder[..i + 1], g) == before + [sec];
          FlatMapSnoc(before, sec, Block);
          AppendAssoc(lines0, FlatMap(before, Block), Block(sec));
          lines := AppendBlock(lines, sec);
        case _ =>
          assert g(stage) == None;
          assert FilterMap(StageOrder[..i + 1], g) == before + [];
          assert before + [] == before;
      }
      i := i + 1;
    }
    assert StageOrder[..i] == StageOrder;
  }

  /** The second loop of `_render_txt`: every other object entry with a "status", in the document's order. */
  method AppendOthers(lines0: seq<string>, doc: seq<Field>) returns (lines: seq<string>)
    ensures lines == lines0 + FlatMap(OtherSections(doc), Block)
  {
    lines := lines0;
    var j := 0;
    while j < |doc|
      invariant 0 <= j <= |doc|
      invariant lines == lines0 + FlatMap(OtherSections(doc[..j]), Block)
    {
      var f := doc[j];
      ghost var before := OtherSections(doc[..j]);
      FilterMapTake(doc, j, OtherSection);
      if f.key in HeaderKeys || f.key in StageOrder || !f.val.JObj? || "status" !in Keys(f.val.fields) {
        assert OtherSection(f) == None;
        assert OtherSections(doc[..j + 1]) == before + [];
        assert before + [] == before;
      } else {
        var sec := Section(f.key, f.val.fields);
        assert OtherSection(f) == Some(sec);
        assert OtherSections(doc[..j + 1]) == before + [sec];
        FlatMapSnoc(before, sec, Block);
        AppendAssoc(lines0, FlatMap(before, Block), Block(sec));
        lines := AppendBlock(lines, sec);
      }
      j := j + 1;
    }
    assert doc[..j] == doc;
  }

  /** Appends one stage: its title, its detail lines one key at a time, and a blank line. */
  method AppendBlock(lines: seq<string>, s: Section) returns (out: seq<string>)
    ensures out == lines + Block(s)
  {
    out := lines + [Title(s)];
    ghost var title := out;
    var k := 0;
    while k < |s.body|
      invariant 0 <= k <= |s.body|
      invariant out == title + FlatMap(s.body[..k], DetailLine)
    {
      var f := s.body[k];
      ghost var before := out;
      FlatMapTake(s.body, k, DetailLine);
      if f.key != "status" && f.key != "at" {
        var line := "  " + f.key + ": " + Str(f.val);
        assert DetailLine(f) == [line];
        out := out + [line];
        AppendAssoc(title, FlatMap(s.body[..k], DetailLine), [line]);
      } else {
        assert DetailLine(f) == [];
        assert FlatMap(s.body[..k], DetailLine) + [] == FlatMap(s.body[..k], DetailLine);
      }
      k := k + 1;
    }
    assert s.body[..k] == s.body;
    out := out + [""];
  }

  // ---------------------------------------------------------------------------
  // main: reset and stage update
  // ---------------------------------------------------------------------------

  /** The command line: `--stage --status --run_id --run_dir --message --artifacts_json`. */
  datatype Request = Request(stage: string, status: string, runId: string, runDir: string,
                             message: string, artifacts: string)

  /** The stage, upper-cased status, run id and message, trimmed as `main` trims them. */
  function StageName(r: Request): string { Strip(r.stage) }
  function StatusName(r: Request): string { Strip(Upper(r.status)) }
  function RunId(r: Request): string { Strip(r.runId) }
  function Message(r: Request): string { Strip(r.message) }

  function JsonPath(r: Request): string { JoinPath(Strip(r.runDir), "PIPELINE_STATUS.json") }
  function TxtPath(r: Request): string { JoinPath(Strip(r.runDir), "PIPELINE_STATUS.txt") }

  /** `--artifacts_json`: an object as it is, any other value under "artifacts", unparsable text under "artifacts_raw". */
  function ArtifactFields(raw: string, parse: string -> Option<Json>): (art: seq<Field>)
    ensures Strip(raw) == "" ==> art == []
    ensures Strip(raw) != "" && parse(raw).None? ==> art == [Field("artifacts_raw", JStr(raw))]
    ensures Strip(raw) != "" && parse(raw).Some? && parse(raw).value.JObj? ==> art == parse(raw).value.fields
    ensures Strip(raw) != "" && parse(raw).Some? && !parse(raw).value.JObj? ==> art == [Field("artifacts", parse(raw).value)]
  {
    if Strip(raw) == "" then []
    else match parse(raw)
      case None => [Field("artifacts_raw", JStr(raw))]
      case Some(JObj(fs)) => fs
      case Some(v) => [Field("artifacts", v)]
  }

  /** `sdoc[k] = v` for every artifact, in order. */
  function MergeAll(body: seq<Field>, art: seq<Field>): seq<Field> {
    if art == [] then body
    else
      var f := art[|art| - 1];
      Put(MergeAll(body, art[..|art| - 1]), f.key, f.val)
  }

  /** `reset`: the document is replaced by its three header keys. */
  function ResetDoc(r: Request, now: string): seq<Field> {
    [Field("updated_at", JStr(now)), Field("run_id", JStr(RunId(r))), Field("overall_status", JStr(StatusName(r)))]
  }

  /** The stage object after the update: status and time set, msg removed or set, artifacts merged over it. */
  function StageBody(previous: Option<Json>, r: Request, now: string, art: seq<Field>): seq<Field> {
    MergeAll(WithMessage(Stamped(PrevFields(previous), r, now), r), art)
  }

  /** What the stage held before, as a dict: nothing when it was absent or not an object. */
  function PrevFields(previous: Option<Json>): seq<Field> {
    match previous case Some(JObj(fs)) => fs case _ => []
  }

  /** The stage's status and time written over what it held. */
  function Stamped(base: seq<Field>, r: Request, now: string): seq<Field> {
    Put(Put(base, "status", JStr(StatusName(r))), "at", JStr(now))
  }

  /** A SUCCESS drops the message; any other status records the message when one was given. */
  function WithMessage(s1: seq<Field>, r: Request): seq<Field> {
    if StatusName(r) == "SUCCESS" then Remove(s1, "msg")
    else if Message(r) != "" then Put(s1, "msg", JStr(Message(r)))
    else s1
  }

  /** The document with header keys and the stage updated, before overall_status is recomputed. */
  function StagedDoc(doc: seq<Field>, r: Request, now: string, art: seq<Field>): seq<Field> {
    var d1 := Put(Put(doc, "run_id", JStr(RunId(r))), "updated_at", JStr(now));
    Put(d1, StageName(r), JObj(StageBody(Lookup(d1, StageName(r)), r, now, art)))
  }

  function UpdatedDoc(doc: seq<Field>, r: Request, now: string, art: seq<Field>): seq<Field> {
    var d2 := StagedDoc(doc, r, now, art);
    Put(d2, "overall_status", JStr(ComputeOverall(d2)))
  }

  /** The document `main` writes, or `None` when the loaded document is not an object and indexing it raises. */
  function NewDoc(loaded: Json, r: Request, now: string, art: seq<Field>): Option<seq<Field>> {
    if Lower(StageName(r)) == "reset" then Some(ResetDoc(r, now))
    else if loaded.JObj? then Some(UpdatedDoc(loaded.fields, r, now, art))
    else None
  }

  /** The exit code and the files after one invocation. */
  datatype Done = Done(exit: int, files: Files)

  /** Both files written in turn, each with three attempts; a raised error ends the run with exit 1. */
  function WriteBoth(files: Files, r: Request, doc: seq<Field>, dump: Json -> string,
                     jsonTries: nat -> Attempt, txtTries: nat -> Attempt): Done
  {
    var w1 := WriteOutcome(3, jsonTries);
    if w1.Raised? then Done(1, files)
    else
      var files1 := if w1.Written? then files[JsonPath(r) := dump(JObj(doc)) + "\n"] else files;
      var w2 := WriteOutcome(3, txtTries);
      if w2.Raised? then Done(1, files1)
      else Done(0, if w2.Written? then files1[TxtPath(r) := RenderText(doc)] else files1)
  }

  function Update(files: Files, r: Request, now: string, parse: string -> Option<Json>, dump: Json -> string,
                  jsonTries: nat -> Attempt, txtTries: nat -> Attempt): Done
  {
    var loaded := LoadJson(files, JsonPath(r), parse);
    match NewDoc(loaded, r, now, ArtifactFields(r.artifacts, parse))
    case None => Done(1, files)
    case Some(doc) => WriteBoth(files, r, doc, dump, jsonTries, txtTries)
  }

  /** The run directory that holds PIPELINE_STATUS.json and PIPELINE_STATUS.txt. */
  class RunDir {
    var files: Files

    constructor (files0: Files)
      ensures files == files0
    {
      files := files0;
    }

    /** `_atomic_write_text`: the retry loop, remembering the last error. */
    method AtomicWrite(path: string, text: string, retries: int, attempt: nat -> Attempt) returns (r: WriteResult)
      modifies this
      ensures r == WriteOutcome(retries, attempt)
      ensures files == if r.Written? then old(files)[path := text] else old(files)
    {
      var lastErr: Option<string> := None;
      var i: nat := 0;
      while i < retries
        invariant retries > 0 ==> i <= retries
        invariant retries <= 0 ==> i == 0
        invariant WriteFrom(retries, attempt, i, lastErr) == WriteOutcome(retries, attempt)
        invariant forall j :: 0 <= j < i ==> attempt(j).Fail?
        invariant lastErr == if i == 0 then None else Some(attempt(i - 1).error)
        invariant files == old(files)
        decreases retries - i
      {
        match attempt(i) {
          case Ok =>
            files := files[path := text];
            return Written(i + 1);
          case Fail(e) =>
            lastErr := Some(e);
        }
        i := i + 1;
      }
      if lastErr.Some? {
        return Raised(lastErr.value, i);
      }
      return NoAttempt;
    }

    /** `main`: load, reset or update the document, then write the JSON file and the text file. */
    method Invoke(r: Request, now: string, parse: string -> Option<Json>, dump: Json -> string,
                  jsonTries: nat -> Attempt, txtTries: nat -> Attempt) returns (exit: int)
      modifies this
      ensures Done(exit, files) == Update(old(files), r, now, parse, dump, jsonTries, txtTries)
    {
      var art := ArtifactFields(r.artifacts, parse);
      var loaded := LoadJson(files, JsonPath(r), parse);
      var doc: seq<Field>;
      if Lower(Strip(r.stage)) == "reset" {
        doc := [Field("updated_at", JStr(now)), Field("run_id", JStr(Strip(r.runId))),
                Field("overall_status", JStr(Strip(Upper(r.status))))];
      } else {
        if !loaded.JObj? {
          return 1;
        }
        doc := UpdateStage(loaded.fields, r, now, art);
      }
      assert NewDoc(loaded, r, now, art) == Some(doc);
      exit := WriteFiles(r, doc, dump, jsonTries, txtTries);
    }

    /** The two writes at the end of `main`: the JSON file first, the text file only if that did not raise. */
    method WriteFiles(r: Request, doc: seq<Field>, dump: Json -> string,
                      jsonTries: nat -> Attempt, txtTries: nat -> Attempt) returns (exit: int)
      modifies this
      ensures Done(exit, files) == WriteBoth(old(files), r, doc, dump, jsonTries, txtTries)
    {
      var w1 := AtomicWrite(JsonPath(r), dump(JObj(doc)) + "\n", 3, jsonTries);
      if w1.Raised? {
        return 1;
      }
      var text := RenderTxt(doc);
      var w2 := AtomicWrite(TxtPath(r), text, 3, txtTries);
      if w2.Raised? {
        return 1;
      }
      return 0;
    }
  }

  /** The update branch of `main`, one assignment at a time as the source makes them. */
  method UpdateStage(doc0: seq<Field>, r: Request, now: string, art: seq<Field>) returns (doc: seq<Field>)
    ensures doc == UpdatedDoc(doc0, r, now, art)
  {
    var stage := Strip(r.stage);
    var status := Strip(Upper(r.status));
    var msg := Strip(r.message);
    doc := Put(doc0, "run_id", JStr(Strip(r.runId)));
    doc := Put(doc, "updated_at", JStr(now));
    var sdoc: seq<Field> := match Lookup(doc, stage) case Some(JObj(fs)) => fs case _ => [];
    sdoc := Put(sdoc, "status", JStr(status));
    sdoc := Put(sdoc, "at", JStr(now));
    if status == "SUCCESS" {
      sdoc := Remove(sdoc, "msg");
    } else if msg != "" {
      sdoc := Put(sdoc, "msg", JStr(msg));
    }
    sdoc := MergeArtifacts(sdoc, art);
    doc := Put(doc, stage, JObj(sdoc));
    doc := Put(doc, "overall_status", JStr(ComputeOverall(doc)));
  }

  /** `for k, v in artifacts.items(): sdoc[k] = v`. */
  method MergeArtifacts(body: seq<Field>, art: seq<Field>) returns (sdoc: seq<Field>)
    ensures sdoc == MergeAll(body, art)
  {
    sdoc := body;
    var k := 0;
    while k < |art|
      invariant 0 <= k <= |art|
      invariant sdoc == MergeAll(body, art[..k])
    {
      assert art[..k + 1][..k] == art[..k];
      sdoc := Put(sdoc, art[k].key, art[k].val);
      k := k + 1;
    }
    assert art[..k] == art;
  }

  // ---------------------------------------------------------------------------
  // Properties of an update
  // ---------------------------------------------------------------------------

  lemma {:induction false} LookupAppend(fs: seq<Field>, f: Field, x: string)
    ensures Lookup(fs + [f], x) == if x in Keys(fs) then Lookup(fs, x) else if x == f.key then Some(f.val) else None
  {
    if fs != [] {
      assert (fs + [f])[1..] == fs[1..] + [f];
      assert Keys(fs) == [fs[0].key] + Keys(fs[1..]);
      LookupAppend(fs[1..], f, x);
    } else {
      assert [f][1..] == [];
    }
  }

  /** Artifact keys win over what the stage held; every other key keeps its value. */
  lemma {:induction false} MergeLookup(body: seq<Field>, art: seq<Field>, x: string)
    requires DistinctKeys(art)
    ensures Lookup(MergeAll(body, art), x) == if x in Keys(art) then Lookup(art, x) else Lookup(body, x)
  {
    if art != [] {
      var init := art[..|art| - 1];
      var f := art[|art| - 1];
      assert art == init + [f];
      assert DistinctKeys(init);
      assert Keys(art) == Keys(init) + [f.key];
      assert f.key !in Keys(init) by {
        forall i | 0 <= i < |init| ensures init[i].key != f.key {
          assert art[i] == init[i];
        }
      }
      MergeLookup(body, init, x);
      PutLookup(MergeAll(body, init), f.key, f.val, x);
      LookupAppend(init, f, x);
    }
  }

  /**
   * After a stage update the stage holds the upper-cased status and the update
   * time, unless an artifact of that name replaced them; "msg" is gone on
   * SUCCESS, the message when one was given, and otherwise what it was; every
   * artifact key holds the artifact's value; every other key of the stage keeps
   * its value.
   */
  lemma StageAfterUpdate(doc: seq<Field>, r: Request, now: string, art: seq<Field>)
    requires DistinctKeys(art)
    requires StageName(r) != "overall_status"
    ensures var d := UpdatedDoc(doc, r, now, art);
            var d1 := Put(Put(doc, "run_id", JStr(RunId(r))), "updated_at", JStr(now));
            var body := StageBody(Lookup(d1, StageName(r)), r, now, art);
            && Lookup(d, StageName(r)) == Some(JObj(body))
            && Lookup(body, "status") == (if "status" in Keys(art) then Lookup(art, "status") else Some(JStr(StatusName(r))))
            && Lookup(body, "at") == (if "at" in Keys(art) then Lookup(art, "at") else Some(JStr(now)))
            && ("msg" !in Keys(art) && StatusName(r) == "SUCCESS" ==> Lookup(body, "msg") == None)
            && ("msg" !in Keys(art) && StatusName(r) != "SUCCESS" && Message(r) != "" ==>
                  Lookup(body, "msg") == Some(JStr(Message(r))))
            && ("msg" !in Keys(art) && StatusName(r) != "SUCCESS" && Message(r) == "" ==>
                  Lookup(body, "msg") == Lookup(PrevFields(Lookup(d1, StageName(r))), "msg"))
            && (forall k :: k in Keys(art) ==> Lookup(body, k) == Lookup(art, k))
            && (forall k :: k !in Keys(art) && k != "status" && k != "at" && k != "msg" ==>
                  Lookup(body, k) == Lookup(PrevFields(Lookup(d1, StageName(r))), k))
    ensures var d1 := Put(Put(doc, "run_id", JStr(RunId(r))), "updated_at", JStr(now));
            StageName(r) != "run_id" && StageName(r) != "updated_at" ==> Lookup(d1, StageName(r)) == Lookup(doc, StageName(r))
  {
    var d1 := Put(Put(doc, "run_id", JStr(RunId(r))), "updated_at", JStr(now));
    PutLookup(doc, "run_id", JStr(RunId(r)), StageName(r));
    PutLookup(Put(doc, "run_id", JStr(RunId(r))), "updated_at", JStr(now), StageName(r));
    StageStored(doc, r, now, art);
    StageBodyFields(Lookup(d1, StageName(r)), r, now, art);
  }

  /** The updated stage is stored under its own name; recomputing overall_status does not touch it. */
  lemma StageStored(doc: seq<Field>, r: Request, now: string, art: seq<Field>)
    requires StageName(r) != "overall_status"
    ensures var d1 := Put(Put(doc, "run_id", JStr(RunId(r))), "updated_at", JStr(now));
            Lookup(UpdatedDoc(doc, r, now, art), StageName(r)) == Some(JObj(StageBody(Lookup(d1, StageName(r)), r, now, art)))
  {
    var d1 := Put(Put(doc, "run_id", JStr(RunId(r))), "updated_at", JStr(now));
    var body := StageBody(Lookup(d1, StageName(r)), r, now, art);
    var d2 := Put(d1, StageName(r), JObj(body));
    assert d2 == StagedDoc(doc, r, now, art);
    PutLookup(d2, "overall_status", JStr(ComputeOverall(d2)), StageName(r));
    PutLookup(d1, StageName(r), JObj(body), StageName(r));
  }

  /** The stage body holds the new status and time, the message rule, and every artifact, artifacts winning. */
  lemma StageBodyFields(prev: Option<Json>, r: Request, now: string, art: seq<Field>)
    requires DistinctKeys(art)
    ensures var body := StageBody(prev, r, now, art);
            && Lookup(body, "status") == (if "status" in Keys(art) then Lookup(art, "status") else Some(JStr(StatusName(r))))
            && Lookup(body, "at") == (if "at" in Keys(art) then Lookup(art, "at") else Some(JStr(now)))
            && ("msg" !in Keys(art) && StatusName(r) == "SUCCESS" ==> Lookup(body, "msg") == None)
            && ("msg" !in Keys(art) && StatusName(r) != "SUCCESS" && Message(r) != "" ==>
                  Lookup(body, "msg") == Some(JStr(Message(r))))
            && ("msg" !in Keys(art) && StatusName(r) != "SUCCESS" && Message(r) == "" ==>
                  Lookup(body, "msg") == Lookup(PrevFields(prev), "msg"))
            && (forall k :: k in Keys(art) ==> Lookup(body, k) == Lookup(art, k))
            && (forall k :: k !in Keys(art) && k != "status" && k != "at" && k != "msg" ==>
                  Lookup(body, k) == Lookup(PrevFields(prev), k))
  {
    var base := PrevFields(prev);
    var s1 := Stamped(base, r, now);
    var s2 := WithMessage(s1, r);
    StampedFields(base, r, now);
    MessageRule(s1, r);
    MergeLookup(s2, art, "status");
    MergeLookup(s2, art, "at");
    MergeLookup(s2, art, "msg");
    forall k | k in Keys(art) ensures Lookup(MergeAll(s2, art), k) == Lookup(art, k) {
      MergeLookup(s2, art, k);
    }
    BodyKeeps(base, r, now, art);
    BodyKeepsMessage(base, r, now, art);
  }

  /** The keys an update does not set keep what the stage held. */
  lemma BodyKeeps(base: seq<Field>, r: Request, now: string, art: seq<Field>)
    requires DistinctKeys(art)
    ensures forall k :: k !in Keys(art) && k != "status" && k != "at" && k != "msg" ==>
              Lookup(MergeAll(WithMessage(Stamped(base, r, now), r), art), k) == Lookup(base, k)
  {
    var s1 := Stamped(base, r, now);
    var s2 := WithMessage(s1, r);
    StampedFields(base, r, now);
    MessageRule(s1, r);
    forall k | k !in Keys(art) && k != "status" && k != "at" && k != "msg"
      ensures Lookup(MergeAll(s2, art), k) == Lookup(base, k)
    {
      MergeLookup(s2, art, k);
    }
  }

  /** Without a message and without SUCCESS, the stage keeps its old "msg". */
  lemma BodyKeepsMessage(base: seq<Field>, r: Request, now: string, art: seq<Field>)
    requires DistinctKeys(art)
    ensures "msg" !in Keys(art) && StatusName(r) != "SUCCESS" && Message(r) == "" ==>
              Lookup(MergeAll(WithMessage(Stamped(base, r, now), r), art), "msg") == Lookup(base, "msg")
  {
    var s1 := Stamped(base, r, now);
    StampedFields(base, r, now);
    MessageRule(s1, r);
    MergeLookup(WithMessage(s1, r), art, "msg");
  }

  lemma StampedFields(base: seq<Field>, r: Request, now: string)
    ensures Lookup(Stamped(base, r, now), "status") == Some(JStr(StatusName(r)))
    ensures Lookup(Stamped(base, r, now), "at") == Some(JStr(now))
    ensures forall x :: x != "status" && x != "at" ==> Lookup(Stamped(base, r, now), x) == Lookup(base, x)
  {
    var s0 := Put(base, "status", JStr(StatusName(r)));
    PutLookup(base, "status", JStr(StatusName(r)), "status");
    PutLookup(s0, "at", JStr(now), "status");
    PutLookup(s0, "at", JStr(now), "at");
    forall x | x != "status" && x != "at" ensures Lookup(Stamped(base, r, now), x) == Lookup(base, x) {
      PutLookup(base, "status", JStr(StatusName(r)), x);
      PutLookup(s0, "at", JStr(now), x);
    }
  }

  lemma MessageRule(s1: seq<Field>, r: Request)
    ensures Lookup(WithMessage(s1, r), "status") == Lookup(s1, "status")
    ensures Lookup(WithMessage(s1, r), "at") == Lookup(s1, "at")
    ensures StatusName(r) == "SUCCESS" ==> Lookup(WithMessage(s1, r), "msg") == None
    ensures StatusName(r) != "SUCCESS" && Message(r) != "" ==> Lookup(WithMessage(s1, r), "msg") == Some(JStr(Message(r)))
    ensures StatusName(r) != "SUCCESS" && Message(r) == "" ==> WithMessage(s1, r) == s1
    ensures forall x :: x != "msg" ==> Lookup(WithMessage(s1, r), x) == Lookup(s1, x)
  {
    if StatusName(r) == "SUCCESS" {
      RemoveLookup(s1, "msg", "status");
      RemoveLookup(s1, "msg", "at");
      RemoveLookup(s1, "msg", "msg");
      forall x | x != "msg" ensures Lookup(WithMessage(s1, r), x) == Lookup(s1, x) {
        RemoveLookup(s1, "msg", x);
      }
    } else if Message(r) != "" {
      PutLookup(s1, "msg", JStr(Message(r)), "status");
      PutLookup(s1, "msg", JStr(Message(r)), "at");
      PutLookup(s1, "msg", JStr(Message(r)), "msg");
      forall x | x != "msg" ensures Lookup(WithMessage(s1, r), x) == Lookup(s1, x) {
        PutLookup(s1, "msg", JStr(Message(r)), x);
      }
    }
  }

  /** A stage update touches only the two header keys, the stage itself and overall_status. */
  lemma UpdateFrame(doc: seq<Field>, r: Request, now: string, art: seq<Field>)
    ensures forall x :: x != "run_id" && x != "updated_at" && x != "overall_status" && x != StageName(r) ==>
              Lookup(UpdatedDoc(doc, r, now, art), x) == Lookup(doc, x)
  {
    var d0 := Put(doc, "run_id", JStr(RunId(r)));
    var d1 := Put(d0, "updated_at", JStr(now));
    var d2 := StagedDoc(doc, r, now, art);
    forall x | x != "run_id" && x != "updated_at" && x != "overall_status" && x != StageName(r)
      ensures Lookup(UpdatedDoc(doc, r, now, art), x) == Lookup(doc, x)
    {
      PutLookup(doc, "run_id", JStr(RunId(r)), x);
      PutLookup(d0, "updated_at", JStr(now), x);
      PutLookup(d1, StageName(r), JObj(StageBody(Lookup(d1, StageName(r)), r, now, art)), x);
      PutLookup(d2, "overall_status", JStr(ComputeOverall(d2)), x);
    }
  }

  /** The stored overall_status is the precedence of all stage statuses after the stage was updated. */
  lemma OverallAfterUpdate(doc: seq<Field>, r: Request, now: string, art: seq<Field>)
    ensures var d2 := StagedDoc(doc, r, now, art);
            Lookup(UpdatedDoc(doc, r, now, art), "overall_status") == Some(JStr(ComputeOverall(d2)))
  {
    var d2 := StagedDoc(doc, r, now, art);
    PutLookup(d2, "overall_status", JStr(ComputeOverall(d2)), "overall_status");
  }

  /** A stage reported FAILED, with no artifact named "status", makes the whole run FAILED. */
  lemma FailedStageFailsRun(doc: seq<Field>, r: Request, now: string, art: seq<Field>)
    requires DistinctKeys(art)
    requires StatusName(r) == "FAILED" && "status" !in Keys(art)
    ensures Lookup(UpdatedDoc(doc, r, now, art), "overall_status") == Some(JStr("FAILED"))
  {
    var d1 := Put(Put(doc, "run_id", JStr(RunId(r))), "updated_at", JStr(now));
    var body := StageBody(Lookup(d1, StageName(r)), r, now, art);
    var d2 := StagedDoc(doc, r, now, art);
    OverallAfterUpdate(doc, r, now, art);
    PutLookup(d1, StageName(r), JObj(body), StageName(r));
    StatusLookupFailed(d1, r, now, art, body);
    var i := LookupIndex(d2, StageName(r));
    FailedStatus(body);
    assert StageStatus(d2[i].val) == Some("FAILED");
    OverallPrecedence(d2);
  }

  lemma FailedStatus(body: seq<Field>)
    requires Lookup(body, "status") == Some(JStr("FAILED"))
    ensures StageStatus(JObj(body)) == Some("FAILED")
  {
    assert Upper("FAILED") == "FAILED";
    assert Strip("FAILED") == "FAILED" by {
      assert !IsSpace('F') && !IsSpace('D');
    }
  }

  lemma StatusLookupFailed(d1: seq<Field>, r: Request, now: string, art: seq<Field>, body: seq<Field>)
    requires DistinctKeys(art)
    requires StatusName(r) == "FAILED" && "status" !in Keys(art)
    requires body == StageBody(Lookup(d1, StageName(r)), r, now, art)
    ensures Lookup(body, "status") == Some(JStr("FAILED"))
  {
    var prev := Lookup(d1, StageName(r));
    var base := match prev case Some(JObj(fs)) => fs case _ => [];
    var s1 := Stamped(base, r, now);
    StampedFields(base, r, now);
    MessageRule(s1, r);
    MergeLookup(WithMessage(s1, r), art, "status");
  }

  /** The position of the field `Lookup` finds. */
  lemma LookupIndex(fs: seq<Field>, k: string) returns (i: nat)
    requires Lookup(fs, k).Some?
    ensures i < |fs| && fs[i] == Field(k, Lookup(fs, k).value)
  {
    i :| 0 <= i < |fs| && fs[i] == Field(k, Lookup(fs, k).value);
  }

  /** `reset` keeps nothing of the old document: exactly the three header keys, whatever was loaded. */
  lemma ResetReplaces(loaded: Json, r: Request, now: string, art: seq<Field>)
    requires Lower(StageName(r)) == "reset"
    ensures NewDoc(loaded, r, now, art) == Some(ResetDoc(r, now))
    ensures Keys(ResetDoc(r, now)) == HeaderKeys
  {
    HeaderOnlyKeys(now, RunId(r), StatusName(r));
  }

  lemma HeaderOnlyKeys(now: string, runId: string, status: string)
    ensures Keys([Field("updated_at", JStr(now)), Field("run_id", JStr(runId)), Field("overall_status", JStr(status))]) == HeaderKeys
  {
  }

  /** A document that is not an object is never written: the update raises and exits 1. */
  lemma NonObjectDocRaises(files: Files, r: Request, now: string, parse: string -> Option<Json>, dump: Json -> string,
                           jsonTries: nat -> Attempt, txtTries: nat -> Attempt)
    requires Lower(StageName(r)) != "reset"
    requires !LoadJson(files, JsonPath(r), parse).JObj?
    ensures Update(files, r, now, parse, dump, jsonTries, txtTries) == Done(1, files)
  {
  }

  /** Exit 0 means both files were written: the JSON file holds the dump of the new document and the text file its rendering. */
  lemma SuccessWritesBoth(files: Files, r: Request, now: string, parse: string -> Option<Json>, dump: Json -> string,
                          jsonTries: nat -> Attempt, txtTries: nat -> Attempt)
    ensures var d := Update(files, r, now, parse, dump, jsonTries, txtTries);
            var loaded := LoadJson(files, JsonPath(r), parse);
            d.exit == 0 ==>
              && NewDoc(loaded, r, now, ArtifactFields(r.artifacts, parse)).Some?
              && TxtPath(r) in d.files
              && d.files[TxtPath(r)] == RenderText(NewDoc(loaded, r, now, ArtifactFields(r.artifacts, parse)).value)
              && JsonPath(r) in d.files
              && d.files[JsonPath(r)] == dump(JObj(NewDoc(loaded, r, now, ArtifactFields(r.artifacts, parse)).value)) + "\n"
  {
    WriteOutcomeMeaning(3, jsonTries);
    WriteOutcomeMeaning(3, txtTries);
  }
}
