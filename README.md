# A verified model of the daily stock-screening pipeline

The pipeline builds a daily shortlist of Taiwanese stocks and keeps it running unattended. This project models its decision logic in Dafny and proves properties of that model:

- **Orchestrator** (`oneclick.dfy`). `oneclick_daily_run.py` runs the primary daily job. It checks the outputs with a hard guard: each must exist and be non-empty. When the job or the guard fails, the fallback job runs with the identical argument list. The runner then writes `RUN_STATUS.txt` and exits with 0, 1, 2, 3 or 10.
- **Status document** (`pipeline_status.dfy`). `app/ops/update_pipeline_status.py` keeps `PIPELINE_STATUS.json`. Each call updates one stage and recomputes the overall status by precedence (FAILED, then RUNNING, then SUCCESS). It renders the text file in a fixed stage order and writes both files with a bounded retry.
- **Health gates** (`run_summary.dfy`, `check_health.dfy`, `health_gate.dfy`). `check_health.py` and `app/ops/health_gate.py` read the last rows of `run_summary.csv`. They alert on a recent FAILED run, then on too high a FALLBACK share among recent SUCCESS runs, with exits 30, 31 and 32.
- **Input quality gate** (`quality_gate.dfy`). `app/ops/quality_gate.py` counts the bad close and trade-value cells of `daily_input.csv`. It then passes, fails, or in degrade mode keeps only the good rows.
- **Market data** (`prepare_input.dfy`, `fetch_tpex.dfy`, `fetch_twse.dfy`, `dates.dfy`).
  - `prepare_input.py` cleans numbers and codes, finds each exchange's table by its column names, de-duplicates by (market, code) keeping the last row, keeps common stocks and applies dynamic sanity thresholds.
  - `fetch_tpex.py` finds the CSV header and converts ROC dates.
  - `fetch_twse.py` searches back day by day for a payload that looks like a trading day.
- **Fallback scoring** (`strategy_score.dfy`, `export_top20.dfy`). `fallback_core/strategy_score.py` does three things: it normalises markets, ranks trade value within each market (largest = 1), and derives four tier lights, a composite score, a decision flag and a top-N flag. `fallback_core/export_top20.py` filters, projects and stably sorts the top-20 list.
- **Backtest bookkeeping** (`strategy_with_risk.dfy`). `app/backtest/strategy_with_risk.py` covers day listing, breadth, top-N code choice, price maps, the accounting of each code, exposures and the traded-day counters.
- **Utilities** (`path_display.dfy`, `cleanup_retention.dfy`, `cleanup_logs.dfy`). `app/ops/path_display.py` maps a path for display. `app/ops/cleanup_retention.py` and `app/ops/cleanup_logs.py` delete files strictly older than a cutoff and count them.

Shared modules model what the scripts take from Python and pandas:

- `wrappers.dfy`: Option and Result.
- `text.dfy`: `str.strip`, `upper`, `split`, `join`, and the parts of `float()` and `int()` used.
- `seqs.dfy`: filter and map loops.
- `sorting.dfy`: a stable sort.
- `json.dfy`: JSON values whose objects keep insertion order.
- `frames.dfy`: frames as column lists and records.
- `paths.dfy`: Windows-style path joins.

Where a script changes state step by step, the model does too:

- each such script is a class whose fields are its files or folders;
- each loop is a method with invariants, proved against a functional specification;
- the properties are lemmas about that specification.

The file system is a map from path to content. Child processes, HTTP downloads, clocks, `json.loads`/`json.dumps`, CSV reading and SHA-256 are parameters.

## Model

| member | source | states |
|---|---|---|
| `Oneclick.Scrub` | oneclick_daily_run.py:44-49 | the scrubbed token has exactly the input's length, one output character per input character |
| `Oneclick.ScrubLoop` | oneclick_daily_run.py:44-50 | the character loop yields the scrubbed text: each letter, digit, '.', '_' or '-' kept, every other character replaced by '_' |
| `Oneclick.SanitizeToken` | oneclick_daily_run.py:39-53 | the token is the scrubbed text stripped of '.', '_', '-' at both ends, "NA" when nothing is left, cut to `max_len` |
| `Oneclick.ScrubSafe` | oneclick_daily_run.py:44-49 | every character of the scrubbed text is a letter, a digit, '.', '_' or '-' |
| `Oneclick.UncutShape` | oneclick_daily_run.py:50-52 | before the cut the token is never empty, starts with a letter or digit and holds only safe characters |
| `Oneclick.SanitizedSafe` | oneclick_daily_run.py:50-53 | the token is at most `max_len` long and holds only safe characters |
| `Oneclick.SanitizedStart` | oneclick_daily_run.py:50-53 | with `max_len` > 0 the token is non-empty and starts with a letter or digit |
| `Oneclick.SanitizedDefault` | oneclick_daily_run.py:50-53 | an input without any letter or digit gives "NA" cut to `max_len` |
| `Oneclick.LogNameHasNoSeparator` | oneclick_daily_run.py:243-245 | the mode and input-stem tokens of the log file name never contain a path separator |
| `Oneclick.CheckOutputs` | oneclick_daily_run.py:79-95 | no error exactly when the output exists and is non-empty and, if a top20 path is given, that file also exists and is non-empty |
| `Oneclick.BuildDailyArgs` | oneclick_daily_run.py:198-202 | eight arguments when a top20 path is given, six otherwise |
| `Oneclick.DailyArgsRoundTrip` | oneclick_daily_run.py:198-202 | reading the list back yields the input, output and mode passed, and `--top20` exactly when a top20 path was given |
| `Oneclick.Observe` | oneclick_daily_run.py:116-128 | existence and size of both outputs as found on disk; a digest only for a file that exists and is non-empty, "" otherwise |
| `Oneclick.StatusFieldsReadBack` | oneclick_daily_run.py:130-159 | a reader of the status text finds the recorded `result` and `used_core` on their lines |
| `Oneclick.HeadResult` | oneclick_daily_run.py:131-136 | the `result` line is found after the five lines before it |
| `Oneclick.HeadCore` | oneclick_daily_run.py:131-137 | the `used_core` line is found after the six lines before it |
| `Oneclick.StatusText` | oneclick_daily_run.py:159 | the status text is never empty and ends with a newline |
| `Oneclick.PlanOf` | oneclick_daily_run.py:228-238 | a top20 path exactly when `--top20` is not blank; the primary script under the base folder, the fallback script under the fallback folder, RUN_STATUS.txt next to the output |
| `Oneclick.Workspace.WriteStatus` | oneclick_daily_run.py:98-159 | the record is taken from the files as they are before the write, then only the status file changes |
| `Oneclick.Workspace.RunChild` | oneclick_daily_run.py:162-195 | the child's exit code is returned, the files become what the child left, and the launch is recorded with its script, arguments and folder |
| `Oneclick.Workspace.DryRunStep` | oneclick_daily_run.py:259-298 | the dry run's exit code, files and (no) launches agree with the functional dry run |
| `Oneclick.Workspace.SelfCheckStep` | oneclick_daily_run.py:300-313 | a missing input is created with the test rows; nothing else changes |
| `Oneclick.Workspace.PrimaryStep` | oneclick_daily_run.py:315-428 | exit code, files and launches agree with the functional run from the primary job on |
| `Oneclick.Workspace.FallbackStep` | oneclick_daily_run.py:385-428 | exit code, files and the fallback launch agree with the functional run after the fallback job |
| `Oneclick.Workspace.ExecuteStep` | oneclick_daily_run.py:300-428 | exit code, files and launches agree with the functional self-check and two-job run |
| `Oneclick.Workspace.Invoke` | oneclick_daily_run.py:215-428 | exit code, files and launches agree with the functional `main` |
| `Oneclick.PrimarySuccess` | oneclick_daily_run.py:337-353 | a primary exiting 0 with valid outputs gives exit 0, one launch only, and a SUCCESS/PRIMARY status with return code 0 |
| `Oneclick.FallbackSameArgs` | oneclick_daily_run.py:315-386 | the fallback is launched exactly when the primary exited non-zero or left invalid outputs and the fallback script is present, and then both jobs get the identical argument list |
| `Oneclick.FallbackMissing` | oneclick_daily_run.py:366-383 | exit 2 exactly when the primary failed and the fallback script is missing; then one launch and a FAILED/NONE status with the primary's code |
| `Oneclick.FallbackDecides` | oneclick_daily_run.py:388-428 | after a fallback run: exit 0 iff it exited 0 with valid outputs (SUCCESS/FALLBACK), else exit 3 with FAILED/NONE and both errors; both codes recorded |
| `Oneclick.SuccessMeansValidOutputs` | oneclick_daily_run.py:337-405 | exit 0 from a real run means valid outputs, a SUCCESS status naming PRIMARY or FALLBACK, and the digest of the output that job wrote |
| `Oneclick.PrimaryPathValid` | oneclick_daily_run.py:337-405 | the same, from the primary job on |
| `Oneclick.FallbackPathValid` | oneclick_daily_run.py:388-405 | the same, after the fallback job |
| `Oneclick.FinishKeepsOutputs` | oneclick_daily_run.py:237-238 | writing RUN_STATUS.txt never turns valid outputs into invalid ones |
| `Oneclick.StatusTextSize` | oneclick_daily_run.py:159 | the status text has a positive byte size |
| `Oneclick.ExitCodes` | oneclick_daily_run.py:205-428 | the exit code is one of 0, 1, 2, 3, 10; 10 only for a dry run; a dry run launches nothing; exit 0 of a real run launched a job |
| `Oneclick.DryRunExits` | oneclick_daily_run.py:259-298 | a dry run exits 0 or 10 and launches nothing |
| `Oneclick.ExecuteExits` | oneclick_daily_run.py:315-428 | the two-job run exits 0, 1, 2 or 3, and 0 only after a launch |
| `PipelineStatus.LoadJson` | app/ops/update_pipeline_status.py:15-21 | a missing or unparsable file reads as the empty object; otherwise the parsed value |
| `PipelineStatus.WriteOutcomeMeaning` | app/ops/update_pipeline_status.py:24-40 | a write happens at the first successful attempt, after only failed ones, within `retries`; when all `retries` attempts fail the last error is raised; no attempt exactly when `retries` <= 0 |
| `PipelineStatus.WriteFromMeaning` | app/ops/update_pipeline_status.py:27-40 | the same from any attempt on, given that the earlier ones failed |
| `PipelineStatus.RunDir.AtomicWrite` | app/ops/update_pipeline_status.py:24-40 | the retry loop gives the outcome above; the target holds the text after a write and is unchanged otherwise |
| `PipelineStatus.StageStatus` | app/ops/update_pipeline_status.py:44-49 | a stage contributes a status only when it is non-empty |
| `PipelineStatus.StageStatusesMembers` | app/ops/update_pipeline_status.py:44-49 | a status is collected exactly when some entry contributes it |
| `PipelineStatus.ComputeOverall` | app/ops/update_pipeline_status.py:51-57 | the overall status is FAILED, RUNNING or SUCCESS |
| `PipelineStatus.OverallPrecedence` | app/ops/update_pipeline_status.py:43-57 | FAILED iff some stage is FAILED; RUNNING iff none is FAILED and one is RUNNING or none has a status; SUCCESS iff some has a status and none is FAILED or RUNNING |
| `PipelineStatus.RenderText` | app/ops/update_pipeline_status.py:60-100 | the text ends with exactly one newline, preceded by a non-blank character |
| `PipelineStatus.Terminated` | app/ops/update_pipeline_status.py:100 | `rstrip() + "\n"` ends in a single newline after a non-blank character |
| `PipelineStatus.KnownSectionsShape` | app/ops/update_pipeline_status.py:67-82 | a known stage is shown exactly when the document holds it as an object |
| `PipelineStatus.OtherSectionsShape` | app/ops/update_pipeline_status.py:84-98 | the other stages shown are exactly the object entries with a "status" that are neither header keys nor known stages |
| `PipelineStatus.SectionsOrder` | app/ops/update_pipeline_status.py:67-98 | no header key is shown as a stage, and every known stage comes before every other stage |
| `PipelineStatus.KnownStages` | app/ops/update_pipeline_status.py:67-74 | the first loop shows only known stages |
| `PipelineStatus.OtherStages` | app/ops/update_pipeline_status.py:84-90 | the second loop shows no known stage and no header key |
| `PipelineStatus.RenderTxt` | app/ops/update_pipeline_status.py:60-100 | the line-appending renderer produces exactly the rendered text |
| `PipelineStatus.AppendKnown` | app/ops/update_pipeline_status.py:69-82 | the first loop appends the blocks of the known stages in fixed order |
| `PipelineStatus.AppendOthers` | app/ops/update_pipeline_status.py:84-98 | the second loop appends the blocks of the other stages in document order |
| `PipelineStatus.AppendBlock` | app/ops/update_pipeline_status.py:75-82 | one stage appends its title, its detail lines other than status and at, and a blank line |
| `PipelineStatus.ArtifactFields` | app/ops/update_pipeline_status.py:123-130 | blank `--artifacts_json` gives no artifacts; unparsable text is kept whole under `artifacts_raw`; a parsed object is used as it is; any other parsed value is wrapped under `artifacts` |
| `PipelineStatus.RunDir.Invoke` | app/ops/update_pipeline_status.py:103-177 | the exit code and files after `main` agree with the functional update |
| `PipelineStatus.RunDir.WriteFiles` | app/ops/update_pipeline_status.py:171-172 | the JSON file is written first, the text file only when that did not raise |
| `PipelineStatus.UpdateStage` | app/ops/update_pipeline_status.py:147-169 | the step-by-step stage update yields the updated document |
| `PipelineStatus.MergeArtifacts` | app/ops/update_pipeline_status.py:164-166 | the artifact loop yields the merged stage |
| `PipelineStatus.MergeLookup` | app/ops/update_pipeline_status.py:164-166 | after the merge an artifact key holds the artifact's value and every other key keeps its value |
| `PipelineStatus.StageAfterUpdate` | app/ops/update_pipeline_status.py:150-168 | the stage holds the upper-cased status and the update time unless an artifact replaced them; no msg on SUCCESS; the message when given, else the old msg; every artifact value; every other key of the stage as it was in the loaded document |
| `PipelineStatus.UpdateFrame` | app/ops/update_pipeline_status.py:147-169 | an update changes no document entry other than run_id, updated_at, overall_status and the stage itself |
| `PipelineStatus.StageStored` | app/ops/update_pipeline_status.py:168-169 | the updated stage is stored under its name, untouched by the overall recomputation |
| `PipelineStatus.StageBodyFields` | app/ops/update_pipeline_status.py:150-166 | the stage body holds status, at, the message rule and every artifact, artifacts winning; with no message and no SUCCESS msg keeps its old value; every key nothing sets keeps its old value |
| `PipelineStatus.BodyKeeps` | app/ops/update_pipeline_status.py:150-166 | a stage key that is not status, at, msg or an artifact keeps its old value |
| `PipelineStatus.BodyKeepsMessage` | app/ops/update_pipeline_status.py:157-166 | without a message, a SUCCESS status or a msg artifact, the stage keeps its old msg |
| `PipelineStatus.StampedFields` | app/ops/update_pipeline_status.py:154-155 | the stage's status and at are set and no other key changes |
| `PipelineStatus.MessageRule` | app/ops/update_pipeline_status.py:157-162 | on SUCCESS msg is removed; otherwise a non-empty message is stored and an empty one leaves the stage unchanged; no key other than msg changes |
| `PipelineStatus.OverallAfterUpdate` | app/ops/update_pipeline_status.py:169 | overall_status is recomputed from the document with the stage already updated |
| `PipelineStatus.FailedStageFailsRun` | app/ops/update_pipeline_status.py:154-169 | a stage reported FAILED with no "status" artifact makes overall_status FAILED |
| `PipelineStatus.ResetReplaces` | app/ops/update_pipeline_status.py:134-139 | reset replaces whatever was loaded by exactly updated_at, run_id and overall_status |
| `PipelineStatus.NonObjectDocRaises` | app/ops/update_pipeline_status.py:132-154 | a loaded document that is not an object makes the update raise: exit 1 and no file written |
| `PipelineStatus.SuccessWritesBoth` | app/ops/update_pipeline_status.py:132-177 | exit 0 means the new document exists, the JSON file holds its dump and the text file its rendering |
| `RunSummary.ReadRows` | check_health.py:26-33 | no file gives no rows; `max_rows` <= 0 gives every row; otherwise the last min(`max_rows`, n) rows |
| `RunSummary.FirstFailure` | check_health.py:82-95 | the index found lies inside the table |
| `RunSummary.FirstFailureSpec` | check_health.py:82-95 | the index found is a recent FAILED row with none before it; none found means no row is a recent FAILED one |
| `RunSummary.FindRecentFailure` | check_health.py:83-95 | the loop over the rows stops at the first recent FAILED row, as the specification finds it |
| `RunSummary.CollectWindow` | check_health.py:101-109 | the loop appends exactly the window's SUCCESS rows, in order |
| `RunSummary.Assess` | check_health.py:74-134 | the two checks, made in order, reach the verdict of the decision function |
| `RunSummary.WindowMembers` | check_health.py:101-109 | a row is in the window sample iff its timestamp parses, is not before the cutoff, and it is a SUCCESS |
| `RunSummary.SampleShape` | check_health.py:111-114 | the sample is the window when it holds `min_samples` rows, otherwise the last max(`min_samples`, 1) SUCCESS rows; it only ever holds SUCCESS rows of the table |
| `RunSummary.UnstampedRowsIgnored` | check_health.py:16-23 | a row with a blank or unparsable timestamp counts in neither time-window check |
| `RunSummary.FailureComesFirst` | check_health.py:75-95 | exit 30 iff there are no rows; exit 31 iff there are rows and one of them is a recent FAILED row, whatever the ratio |
| `RunSummary.RatioVerdictMeans` | check_health.py:116-134 | exit 32 iff the sample has at least `min_samples` rows, is not empty and its FALLBACK share is strictly above the threshold; exit 0 iff it is too small or the share is within the threshold; the share lies in [0, 1] |
| `RunSummary.RatioAlert` | check_health.py:82-130 | exit 32 iff rows exist, none is a recent FAILED row, and the sample is large enough with a FALLBACK share strictly above the threshold |
| `RunSummary.HealthyMeans` | check_health.py:75-134 | exit 0 iff rows exist, none is a recent FAILED row, and the sample is too small or its share is within the threshold |
| `RunSummary.ZeroDivisionNeedsNoSamples` | check_health.py:112-118 | the division by zero needs `min_samples` <= 0 and an empty window; with `min_samples` >= 1 it never happens |
| `RunSummary.ZeroDivisionExample` | check_health.py:112-118 | one RUNNING row with `min_samples` = 0 divides by zero |
| `CheckHealth.AlertAfter` | check_health.py:36-46 | exit 0 removes the alert file unless the removal fails, which leaves it as it was; exits 30, 31 and 32 write an alert ending in a newline; the division error leaves it as it was |
| `CheckHealth.Monitor.Invoke` | check_health.py:71-134 | exit code and alert file follow the verdict on the last `max_rows` rows |
| `CheckHealth.DefaultExits` | check_health.py:61-68 | with the default limits the exit is 0, 30, 31 or 32 and at most 200 rows are read |
| `HealthGate.AlertAfter` | app/ops/health_gate.py:34-44 | exit 0 removes the alert file unless the removal fails, which leaves it as it was; exits 30, 31 and 32 write an alert ending in a newline; the division error leaves it as it was |
| `HealthGate.Gate.Invoke` | app/ops/health_gate.py:47-108 | exit code and alert file follow the verdict on the last `max_rows` rows |
| `HealthGate.DefaultExits` | app/ops/health_gate.py:48-54 | with the default limits the exit is 0, 30, 31 or 32 and at most 400 rows are read |
| `QualityGate.Share` | app/ops/quality_gate.py:70-71 | the share is 1.0 for an empty table and lies in [0, 1] otherwise |
| `QualityGate.StatsOf` | app/ops/quality_gate.py:61-71 | the row count is the table's, both bad counts are at most the row count, both shares lie in [0, 1] |
| `QualityGate.DataDir.Invoke` | app/ops/quality_gate.py:29-133 | exit code, input file, report and degraded flag after `main` agree with the functional gate |
| `QualityGate.MissingFails` | app/ops/quality_gate.py:44-59 | a missing input or a missing `close` or `trade_value` column gives exit 3, a FAIL report and no other change |
| `QualityGate.MissingColumnsExact` | app/ops/quality_gate.py:53-54 | a column is reported missing iff it is required and absent |
| `QualityGate.EmptyTableIsOver` | app/ops/quality_gate.py:70-71 | an empty table has share 1.0 and is over any threshold below 1 |
| `QualityGate.DegradeKeepsGoodRows` | app/ops/quality_gate.py:64-65 | the kept rows are exactly those good in both columns, and n minus kept is the number of rows bad in either |
| `QualityGate.FailModeKeepsInput` | app/ops/quality_gate.py:89-100 | fail mode never rewrites the input or the flag, and exits 0 or 3 |
| `QualityGate.ExitZeroMeans` | app/ops/quality_gate.py:89-133 | exit 0 iff the shares are within the thresholds, or degrade mode keeps at least `min_rows` rows; any other exit is 3 and changes nothing but the report; PASS keeps the input, DEGRADED rewrites it to its good rows |
| `PrepareInput.StripCommas` | app/pipeline/prepare_input.py:28-29 | no comma is left in the cleaned number text |
| `PrepareInput.ToIntTruncatesToFloat` | app/pipeline/prepare_input.py:32-49 | `_to_int` reads what `_to_float` reads, truncated toward zero; a non-negative value v gives the integer n with n <= v < n + 1 |
| `PrepareInput.UnreadableIsZero` | app/pipeline/prepare_input.py:32-49 | "", "-", "—" and text `float()` refuses read as 0 for both conversions |
| `PrepareInput.SuffixLength` | app/pipeline/prepare_input.py:52-55 | the removed suffix has length 0, 2, 3 or 4 and never exceeds the code |
| `PrepareInput.SuffixRemoved` | app/pipeline/prepare_input.py:52-55 | a code ending in ".TWO", ".TW" or ".T", in any letter case, loses exactly that suffix |
| `PrepareInput.CommonCodeRange` | app/pipeline/prepare_input.py:58-62 | a common-stock code reads as a number from 1000 to 9999, and every such number written out is a common-stock code |
| `PrepareInput.NameIndex` | app/pipeline/prepare_input.py:88-92 | a name found maps to its last position; a missing name maps to nothing |
| `PrepareInput.FieldNames` | app/pipeline/prepare_input.py:133-135 | one stripped name per field |
| `PrepareInput.Items` | app/pipeline/prepare_input.py:88-92 | `g` reaches a list row's items and a string row's single characters, and no cells of any other row |
| `PrepareInput.StringRowCell` | app/pipeline/prepare_input.py:88-92 | in a string row the cell at a position inside the string is that one character, and "" beyond it |
| `PrepareInput.RaisesWhen` | app/pipeline/prepare_input.py:88-100 | `g` raises on a row exactly when some column read has a known position and the row is a number, bool or null, or a dict no longer than that position |
| `PrepareInput.TableRaisesWhen` | app/pipeline/prepare_input.py:94-100 | the table loop raises exactly when one of its rows does |
| `PrepareInput.TwseRow` | app/pipeline/prepare_input.py:95-117 | a row kept by `parse_by_fields_data` has market "TWSE" and a non-empty code |
| `PrepareInput.StripAll` | app/pipeline/prepare_input.py:135 | one stripped name per field |
| `PrepareInput.LooseIsStrict` | app/pipeline/prepare_input.py:124-147 | the looser pass asks for the same five columns as the first, so it accepts exactly the same tables |
| `PrepareInput.SecondPassFindsNothingNew` | app/pipeline/prepare_input.py:126-148 | both passes over the tables find the same table |
| `PrepareInput.ParseTable` | app/pipeline/prepare_input.py:94-118 | the append loop of `parse_by_fields_data` yields the rows of the table specification |
| `PrepareInput.TwseTableShape` | app/pipeline/prepare_input.py:102-113 | every row of a parsed table has market "TWSE" and a non-empty code |
| `PrepareInput.TwseRowsShape` | app/pipeline/prepare_input.py:79-158 | every row of `parse_twse` has market "TWSE" and a non-empty code |
| `PrepareInput.Pick` | app/pipeline/prepare_input.py:176-180 | the answer is -1 or a column position |
| `PrepareInput.PickFirstAlias` | app/pipeline/prepare_input.py:176-180 | -1 iff no alias is a column; otherwise the column of the first alias, in alias order, that is one |
| `PrepareInput.TpexRow` | app/pipeline/prepare_input.py:192-221 | a kept row has market "TWO" and a non-empty code, and came from a list longer than the largest index read |
| `PrepareInput.ParseTpexRows` | app/pipeline/prepare_input.py:191-223 | the append loop of `parse_tpex` keeps exactly the rows the row function keeps, in order |
| `PrepareInput.TpexRowsShape` | app/pipeline/prepare_input.py:161-223 | every row of `parse_tpex` has market "TWO" and a non-empty code |
| `PrepareInput.NoCodeColumnNoRows` | app/pipeline/prepare_input.py:182-189 | without a code column among the aliases `parse_tpex` returns no rows |
| `PrepareInput.UpsertHas` | app/pipeline/prepare_input.py:325-327 | storing a row into key-distinct rows adds the row and drops only the row with the same (market, code) |
| `PrepareInput.UpsertDistinct` | app/pipeline/prepare_input.py:325-327 | storing a row keeps the keys distinct |
| `PrepareInput.UpsertMembers` | app/pipeline/prepare_input.py:325-327 | storing a row keeps the keys distinct, adds the row and drops only the row with the same (market, code) |
| `PrepareInput.DedupKeepsLast` | app/pipeline/prepare_input.py:324-328 | after the loop the keys are distinct and a row is kept exactly when it is the last one with its (market, code) |
| `PrepareInput.DedupKeepsEveryKey` | app/pipeline/prepare_input.py:324-328 | every (market, code) of the input is still present after de-duplication |
| `PrepareInput.DedupCount` | app/pipeline/prepare_input.py:324-328 | for a test on the key only, de-duplication never adds passing rows |
| `PrepareInput.UpsertCount` | app/pipeline/prepare_input.py:325-327 | one store adds at most one passing row |
| `PrepareInput.DedupRows` | app/pipeline/prepare_input.py:324-328 | the de-duplication loop yields the de-duplication specification |
| `PrepareInput.CloseShare` | app/pipeline/prepare_input.py:260-262 | a non-positive share of at most 10% means 10 × bad <= n |
| `PrepareInput.PassedMeans` | app/pipeline/prepare_input.py:229-270 | a passing table has at least the total floor of rows, at most one in ten non-positive closes, no blank code, only TWSE/TWO markets, and 200 TWSE / 50 TWO rows when that exchange is expected |
| `PrepareInput.LateRulesNeedWitness` | app/pipeline/prepare_input.py:264-270 | the blank-code and market failures happen only when some row breaks that rule |
| `PrepareInput.FilterKeepsDistinct` | app/pipeline/prepare_input.py:332 | the common-stock filter keeps distinct keys distinct |
| `PrepareInput.ParsersAgree` | app/pipeline/prepare_input.py:311-312 | both parsers' rows have the shape the merge relies on |
| `PrepareInput.MergedRowsClean` | app/pipeline/prepare_input.py:321-332 | every merged row is a common stock of TWSE or TWO, and no (market, code) appears twice |
| `PrepareInput.CommonCodesNotBlank` | app/pipeline/prepare_input.py:264-266 | common-stock codes are never blank |
| `PrepareInput.ExchangeMarketsAllowed` | app/pipeline/prepare_input.py:268-270 | rows of the two exchanges never trip the market rule |
| `PrepareInput.MergedNeverBadCodeOrMarket` | app/pipeline/prepare_input.py:321-343 | on what `main` checks, the blank-code and market rules never fire |
| `PrepareInput.FewCommonStocksFail` | app/pipeline/prepare_input.py:243-248 | fewer than 800 parsed common stocks in all fail the total rule |
| `PrepareInput.MergedMarketCount` | app/pipeline/prepare_input.py:316-332 | one exchange's merged rows are no more than its parsed common stocks |
| `PrepareInput.SmallExchangeNeverPasses` | app/pipeline/prepare_input.py:241-258 | an exchange with some but fewer than 200 (TWSE) or 50 (TWO) common stocks makes the check fail |
| `PrepareInput.LatestUnique` | app/pipeline/prepare_input.py:65-69 | two latest matching names are the same name |
| `PrepareInput.LatestExists` | app/pipeline/prepare_input.py:65-69 | when some name matches, a latest one exists |
| `PrepareInput.Latest` | app/pipeline/prepare_input.py:65-69 | nothing iff no name matches the prefix pattern; otherwise the greatest matching name |
| `PrepareInput.EscapeRoundTrip` | app/pipeline/prepare_input.py:290-294 | unescaping an escaped field gives back the text |
| `PrepareInput.CsvFieldRoundTrip` | app/pipeline/prepare_input.py:290-294 | every field the writer produces reads back as the original text |
| `PrepareInput.WriteDaily` | app/pipeline/prepare_input.py:276-295 | the writer loop yields the header then one line per row of the CSV specification |
| `PrepareInput.DataDir.Invoke` | app/pipeline/prepare_input.py:301-354 | on success both the snapshot and daily_input.csv get the same CSV text and exit 0; any failure leaves both as they were and exits 1; inbound never changes |
| `PrepareInput.Run` | app/pipeline/prepare_input.py:305-343 | the find, load, parse, de-duplicate, filter and check steps yield the functional preparation |
| `PrepareInput.BadRowFails` | app/pipeline/prepare_input.py:88-100 | once both payloads are found and parsed, the run fails on the TWSE file exactly when it is an object whose chosen table holds a row `g` cannot read |
| `PrepareInput.PrepareReady` | app/pipeline/prepare_input.py:321-343 | a successful run keeps the merged rows of the latest payloads, and they passed the check |
| `PrepareInput.RowsOfParsed` | app/pipeline/prepare_input.py:308-312 | the rows `main` parses have the parsers' shape |
| `PrepareInput.ReadyRowsClean` | app/pipeline/prepare_input.py:321-351 | the rows written are common stocks of the two exchanges, one per (market, code), at least 800 of them, at most one in ten with a non-positive close |
| `FetchTpex.SkipSpaces` | app/pipeline/fetch_tpex.py:37 | `\s*` stops at the first position that is not a blank, having passed only blanks |
| `FetchTpex.MatchAt` | app/pipeline/fetch_tpex.py:37 | a match at one position yields a ddd/dd/dd date |
| `FetchTpex.SearchFrom` | app/pipeline/fetch_tpex.py:37-40 | the leftmost match's date, which has the ddd/dd/dd shape, or "" |
| `FetchTpex.ExtractReportDate` | app/pipeline/fetch_tpex.py:35-40 | the result is "" or a ddd/dd/dd date |
| `FetchTpex.LabelledDateFound` | app/pipeline/fetch_tpex.py:35-40 | a text opening with 資料日期 or reportDate, blanks, ':' or '：', blanks and a date yields that date |
| `FetchTpex.NoLabelNoDate` | app/pipeline/fetch_tpex.py:35-40 | a text without either label yields "" |
| `FetchTpex.AdStampValue` | app/pipeline/fetch_tpex.py:47-48 | a three-digit year and two-digit month and day give eight digits spelling year + 1911, month and day |
| `FetchTpex.RocToAdValue` | app/pipeline/fetch_tpex.py:43-48 | a ddd/dd/dd date converts to eight digits whose value is (year + 1911) × 10000 + month × 100 + day |
| `FetchTpex.RocToAdFallback` | app/pipeline/fetch_tpex.py:49-50 | text that cannot be split in three gives today's YYYYMMDD |
| `FetchTpex.NoQuotesIsSplit` | app/pipeline/fetch_tpex.py:61-62 | a line without quotes reads as its split at commas |
| `FetchTpex.FeedNoQuotes` | app/pipeline/fetch_tpex.py:61 | without quotes the CSV reader cuts at every comma |
| `FetchTpex.QuotedCellKeepsCommas` | app/pipeline/fetch_tpex.py:61 | a quoted first cell keeps its commas; the rest of the line splits at commas |
| `FetchTpex.StripAll` | app/pipeline/fetch_tpex.py:62 | one stripped cell per raw cell |
| `FetchTpex.Cells` | app/pipeline/fetch_tpex.py:61-62 | one cell per field the CSV reader finds |
| `FetchTpex.CellRows` | app/pipeline/fetch_tpex.py:60-62 | one row of cells per line |
| `FetchTpex.HeaderFrom` | app/pipeline/fetch_tpex.py:58-66 | -1, or a row among the first 50 holding 代號, 名稱 and 收盤 |
| `FetchTpex.HeaderIsFirst` | app/pipeline/fetch_tpex.py:58-66 | the header is the first of the first 50 rows holding 代號, 名稱 and 收盤; -1 exactly when none does |
| `FetchTpex.FindHeader` | app/pipeline/fetch_tpex.py:58-66 | the header loop stops at the header the specification names and returns its cells |
| `FetchTpex.DataRow` | app/pipeline/fetch_tpex.py:72-81 | a data line is kept, unchanged, iff it has at least five cells and a non-empty first cell |
| `FetchTpex.ParseLinesLoop` | app/pipeline/fetch_tpex.py:54-95 | the header search and the data loop yield the functional parse of the non-blank lines |
| `FetchTpex.ParseCsvToPayload` | app/pipeline/fetch_tpex.py:53-95 | the parse of the whole text, with the report date read from it, agrees with the functional parse |
| `FetchTpex.NoHeaderError` | app/pipeline/fetch_tpex.py:68-69 | the parse fails for want of a header exactly when none of the first 50 non-blank lines has one |
| `FetchTpex.NoRowsError` | app/pipeline/fetch_tpex.py:83-84 | the parse fails for want of rows exactly when a header exists and no later line has five cells and a first one |
| `FetchTpex.ParsedQuote` | app/pipeline/fetch_tpex.py:53-95 | a successful parse keeps the report date, the first header line's cells and exactly the qualifying data lines after it, in order, at least one, with the stamp from the report date |
| `FetchTpex.DataRowsShape` | app/pipeline/fetch_tpex.py:76-81 | every kept data row has at least five cells and a non-empty first cell |
| `FetchTpex.StampIsEightDigits` | app/pipeline/fetch_tpex.py:94 | the file stamp is always eight digits: the converted report date, or today's |
| `FetchTpex.PreparedReadsHeader` | app/pipeline/fetch_tpex.py:86-92 | a saved payload has non-empty fields and aaData lists, and `prepare_input` finds its code, name and close columns |
| `FetchTpex.HeaderColumns` | app/pipeline/fetch_tpex.py:63 | a header's cells, saved and read back as names, give the code, name and close columns |
| `FetchTpex.SavedFileFound` | app/pipeline/fetch_tpex.py:104 | the saved file name is one that `prepare_input` looks for |
| `FetchTpex.Inbound.Invoke` | app/pipeline/fetch_tpex.py:98-107 | a download that parses is saved under its stamp with exit 0; a failed download or parse writes nothing and gives status 1 |
| `FetchTwse.LooksOkMeans` | app/pipeline/fetch_twse.py:62-78 | a payload is accepted iff its stat is OK (contains "OK" in any case, contains 成功, or is empty) and some table or some legacy data* entry holds a non-empty list |
| `FetchTwse.SearchFrom` | app/pipeline/fetch_twse.py:84-103 | a found day is a valid date |
| `FetchTwse.SearchFindsFirst` | app/pipeline/fetch_twse.py:84-99 | a found payload answers the day's first passing attempt, rwd before legacy, on a day within the look-back, and every earlier day failed on both endpoints |
| `FetchTwse.SearchExhausted` | app/pipeline/fetch_twse.py:92-103 | the search gives up only when every day up to the look-back limit failed on both endpoints |
| `FetchTwse.ExhaustedStep` | app/pipeline/fetch_twse.py:84-101 | an exhausted search passed each day: it exists, failed on both endpoints, and the search from the next day is exhausted too |
| `FetchTwse.FindLatest` | app/pipeline/fetch_twse.py:81-103 | the loop over look-back days with its early returns yields the search specification |
| `FetchTwse.PutAll` | app/pipeline/fetch_twse.py:111 | the merged object has at least the keys it started with and at most one more per payload key |
| `FetchTwse.PutAllLookup` | app/pipeline/fetch_twse.py:111 | every payload key keeps its payload value; other keys keep what they had |
| `FetchTwse.PutAllKeepsFront` | app/pipeline/fetch_twse.py:111 | earlier keys keep their positions |
| `FetchTwse.SourceFirst` | app/pipeline/fetch_twse.py:111 | `_source` is the first key; every other key holds the payload's value; `_source` is the fetch's source unless the payload has its own |
| `FetchTwse.SavedFilesSortByDate` | app/pipeline/fetch_twse.py:110 | the saved file is one `prepare_input` looks for, and of two saved files the later day sorts last |
| `FetchTwse.Inbound.Invoke` | app/pipeline/fetch_twse.py:106-113 | with a 14-day look-back the found payload is saved with its source and exit 0; otherwise nothing is written and the status is 1 |
| `Dates.Prev` | app/pipeline/fetch_twse.py:85 | one day back is an earlier valid date; it raises only before 1 January of year 1 |
| `Dates.Back` | app/pipeline/fetch_twse.py:85 | i days back is a valid date, earlier than the start when i > 0 |
| `Dates.BackMonotone` | app/pipeline/fetch_twse.py:84-85 | going further back gives strictly earlier dates |
| `Dates.Pad` | app/pipeline/fetch_tpex.py:48 | zero padding gives only digits and at least the width |
| `Dates.PadValue` | app/pipeline/fetch_tpex.py:48 | zero padding a number that fits gives exactly the width and keeps the value |
| `Dates.PaddedStamp` | app/pipeline/fetch_twse.py:16-17 | a year, month and day zero-padded to 4, 2 and 2 digits spell eight digits worth year × 10000 + month × 100 + day |
| `Dates.YyyymmddValue` | app/pipeline/fetch_twse.py:16-17 | `_yyyymmdd` gives eight digits spelling the date |
| `Dates.StampOrder` | app/pipeline/fetch_twse.py:16-17 | calendar order is the order of the stamps' values |
| `Dates.LexIsNumeric` | app/pipeline/prepare_input.py:66 | among digit strings of one length, dictionary order is numeric order |
| `Dates.NamesSortByDate` | app/pipeline/fetch_twse.py:16-17 | stamps sort as their dates do: the one sorting last is the latest day |
| `ExportTop20.CellLeTotal` | fallback_core/export_top20.py:48-50 | any two cells compare one way or the other under the sort order |
| `ExportTop20.CellLeTrans` | fallback_core/export_top20.py:48-50 | the cell order is transitive |
| `ExportTop20.CellLeAntisym` | fallback_core/export_top20.py:48-50 | cells that compare both ways are equal |
| `ExportTop20.KeyLeTotal` | fallback_core/export_top20.py:48-50 | the lexicographic row order over the sort columns is total |
| `ExportTop20.KeyLeTrans` | fallback_core/export_top20.py:48-50 | the lexicographic row order is transitive |
| `ExportTop20.RowOrderPreorder` | fallback_core/export_top20.py:48-50 | the row order over the present sort columns is a total preorder |
| `ExportTop20.ProjectAll` | fallback_core/export_top20.py:52 | one projected row per row, each cut down to the chosen columns |
| `ExportTop20.ExportTop20` | fallback_core/export_top20.py:19-54 | the output path holds the CSV text of exactly the returned frame; every other file is unchanged |
| `ExportTop20.ExportedRows` | fallback_core/export_top20.py:23-30 | without a `light_top20` column nothing is exported; the kept rows are exactly the input rows flagged 1, and the sort is a permutation of them |
| `ExportTop20.ExportedColumns` | fallback_core/export_top20.py:33-45 | the output columns are the priority columns the frame has, without repeats |
| `ExportTop20.PresentDistinct` | fallback_core/export_top20.py:45 | filtering distinct names to the present ones keeps them distinct |
| `ExportTop20.ExportedSorted` | fallback_core/export_top20.py:47-50 | the rows come out in ascending order of the present sort columns |
| `ExportTop20.ExportedStable` | fallback_core/export_top20.py:50 | rows equal on every sort column keep their input order |
| `ExportTop20.ExportedFromFlagged` | fallback_core/export_top20.py:25-52 | every exported row is a flagged input row cut down to the output columns |
| `StrategyScore.Coalesce` | fallback_core/strategy_score.py:32-36 | the first candidate, in list order, that is a column; nothing only when no candidate is a column |
| `StrategyScore.Canonical` | fallback_core/strategy_score.py:63-74 | the normalised market is always TWSE, TWO or UNK |
| `StrategyScore.MarketOf` | fallback_core/strategy_score.py:60-74 | a cell's market is always TWSE, TWO or UNK |
| `StrategyScore.Markets` | fallback_core/strategy_score.py:55-75 | one market per row, each TWSE, TWO or UNK, all UNK when no market-like column exists |
| `StrategyScore.MarketSpellings` | fallback_core/strategy_score.py:60-74 | TSE, TWSE, 上市 map to TWSE, OTC, TWO, 上櫃 to TWO, after upper-casing and trimming; anything else is UNK |
| `StrategyScore.Column` | fallback_core/strategy_score.py:39-43 | one number or NaN per row |
| `StrategyScore.TradeValue` | fallback_core/strategy_score.py:108-121 | one trade value per row |
| `StrategyScore.Turnover` | fallback_core/strategy_score.py:124-135 | one turnover per row |
| `StrategyScore.TradeValueSource` | fallback_core/strategy_score.py:108-121 | when a trade-value column is present, a present one is read as it is; with none, every value is close times volume |
| `StrategyScore.Quotes` | fallback_core/strategy_score.py:143-151 | one market and trade value per row |
| `StrategyScore.MinRank` | fallback_core/strategy_score.py:153 | a rank exists iff the trade value does, and is at least 1 |
| `StrategyScore.PctRank` | fallback_core/strategy_score.py:138-140 | a percentile exists iff the trade value does |
| `StrategyScore.MarketRanks` | fallback_core/strategy_score.py:143-156 | the group loop gives each row of the three groups its min-rank and percentile within its market, NaN otherwise |
| `StrategyScore.RankOne` | fallback_core/strategy_score.py:152-153 | a row ranks 1 iff no row of its market has a larger trade value |
| `StrategyScore.RankOrder` | fallback_core/strategy_score.py:152-153 | a larger value of the same market ranks strictly better; equal values share the same (minimum) rank |
| `StrategyScore.RankBounds` | fallback_core/strategy_score.py:153 | a rank lies between 1 and the number of valued rows of the market |
| `StrategyScore.PctBounds` | fallback_core/strategy_score.py:138-140 | the percentile lies in (0, 1] |
| `StrategyScore.PctOrder` | fallback_core/strategy_score.py:138-140 | a larger value of the same market has a strictly larger percentile |
| `StrategyScore.Tier` | fallback_core/strategy_score.py:159-191 | a light is 0, 1 or 2 |
| `StrategyScore.TierBands` | fallback_core/strategy_score.py:159-191 | with mid <= hi: 2 iff the value is at least hi, 1 iff mid <= value < hi, 0 iff it is missing or below mid |
| `StrategyScore.TierMonotone` | fallback_core/strategy_score.py:159-191 | a larger value never gets a lower light, and a missing value gets the lowest |
| `StrategyScore.FullScoreRange` | fallback_core/strategy_score.py:218-225 | four lights of 0..2 give light_full = sum/2 in [0, 4], and light_decision is 1 iff the sum is at least 4 |
| `StrategyScore.Top20` | fallback_core/strategy_score.py:227-234 | the group loop flags exactly the TWSE and TWO rows ranked at most `topn_each_market`; UNK rows stay 0 |
| `StrategyScore.Top20Closed` | fallback_core/strategy_score.py:227-234 | a row of the same market with a larger trade value than a flagged row is flagged too |
| `StrategyScore.WithColumns` | fallback_core/strategy_score.py:203-234 | setting columns keeps the existing ones in place and appends the new ones |
| `StrategyScore.ShortUsed` | fallback_core/strategy_score.py:174-176 | one short-used ratio per row |
| `StrategyScore.MarginUsed` | fallback_core/strategy_score.py:184-186 | one margin-used ratio per row |
| `StrategyScore.RowsFrom` | fallback_core/strategy_score.py:194-236 | one output row per input row |
| `StrategyScore.Lights` | fallback_core/strategy_score.py:194-236 | one output row per input row |
| `StrategyScore.RowsWith` | fallback_core/strategy_score.py:201-234 | one output row per input row |
| `StrategyScore.ComputeLights` | fallback_core/strategy_score.py:194-236 | the step-by-step computation, group loops included, yields the lights specification |
| `StrategyScore.RowsAgree` | fallback_core/strategy_score.py:209-234 | rows assembled from the group-wise ranks and flags are the rows the specification describes |
| `StrategyScore.ScoreAgrees` | fallback_core/strategy_score.py:218-234 | one row's score from the computed rank and flag agrees with the specification's |
| `StrategyScore.LightsColumns` | fallback_core/strategy_score.py:201-234 | every input column survives in place; the output columns are the input ones plus the seven added |
| `StrategyScore.LightsRow` | fallback_core/strategy_score.py:194-236 | per row: other cells unchanged; trade_value set; a rank of at least 1 iff a trade value; light_full in [0, 4]; light_decision 1 iff light_full >= 2; light_top20 1 iff the market is TWSE or TWO, a value exists and its rank is at most `topn_each_market` |
| `StrategyScore.ScoreWithProps` | fallback_core/strategy_score.py:218-234 | one row: light_full in [0, 4], the decision rule, and the top-N rule |
| `StrategyScore.ScoredCells` | fallback_core/strategy_score.py:203-234 | setting the seven cells changes no other cell and stores each computed value |
| `Backtest.StrLePreorder` | app/backtest/strategy_with_risk.py:76 | string order used by `sorted` is a total preorder |
| `Backtest.ListDays` | app/backtest/strategy_with_risk.py:63-76 | the listing loop returns the specified day list |
| `Backtest.DaysSpec` | app/backtest/strategy_with_risk.py:63-76 | days are sorted, each is eight digits, and a name is a day iff the root exists and some folder of that name holds both files |
| `Backtest.BreadthRatio` | app/backtest/strategy_with_risk.py:79-96 | the counting loop returns the specified breadth |
| `Backtest.BreadthStep` | app/backtest/strategy_with_risk.py:87-93 | one more row adds one to the voting count iff it votes, and to the positive count iff it is positive |
| `Backtest.BreadthBounds` | app/backtest/strategy_with_risk.py:79-96 | breadth lies in [0, 1], and is 0 when no row has a decision |
| `Backtest.FractionAtMostOne` | app/backtest/strategy_with_risk.py:96 | a count over a larger positive count is a fraction in [0, 1] |
| `Backtest.TopNCodes` | app/backtest/strategy_with_risk.py:99-107 | the loop with its early break returns the specified codes |
| `Backtest.TopNAt` | app/backtest/strategy_with_risk.py:105-106 | breaking after the row where the count first reaches `topN` gives the specified codes |
| `Backtest.TopNSpec` | app/backtest/strategy_with_risk.py:99-107 | codes are non-blank and stripped, a prefix of all codes in row order, at most `topN` of them (at most one when `topN` < 1) |
| `Backtest.PriceMap` | app/backtest/strategy_with_risk.py:110-119 | the assignment loop returns the specified map |
| `Backtest.PriceMapPositive` | app/backtest/strategy_with_risk.py:117-118 | every stored price is positive |
| `Backtest.PriceMapKeys` | app/backtest/strategy_with_risk.py:110-119 | a code is a key iff some row has that code with a finite positive close |
| `Backtest.PriceMapLast` | app/backtest/strategy_with_risk.py:118 | the stored price is the one of the last usable row for the code |
| `Backtest.AvgRet` | app/backtest/strategy_with_risk.py:122-149 | used, missing-today and missing-next counts are the sizes of the three fates; the mean is the sum of returns over their count, 0 with none |
| `Backtest.FateStep` | app/backtest/strategy_with_risk.py:133-145 | one more code grows exactly the list or counter of its own fate |
| `Backtest.FatesPartition` | app/backtest/strategy_with_risk.py:133-145 | every code lands in exactly one of used, missing today, missing next day, unusable |
| `Backtest.NoBadWithPriceMaps` | app/backtest/strategy_with_risk.py:142-144 | with maps built by `_price_map` no code is unusable |
| `Backtest.Run` | app/backtest/strategy_with_risk.py:230-284 | fewer than two days exit 1 with no pairs; otherwise exit 0 and one record per consecutive pair of days, in order |
| `Backtest.ProcessPair` | app/backtest/strategy_with_risk.py:252-270 | one iteration computes the specified pair record |
| `Backtest.Count` | app/backtest/strategy_with_risk.py:273-284 | each counter after one pair is the number of pairs, the new one included, meeting its condition |
| `Backtest.TallyTotals` | app/backtest/strategy_with_risk.py:273-284 | traded plus idle days of each gated strategy equal the number of pairs; gated strategies never trade more days than the ungated one |
| `Backtest.PairExposures` | app/backtest/strategy_with_risk.py:260-270 | tier exposure is 1 iff breadth >= risk_on and 0 otherwise; continuous exposure is the breadth, in [0, 1]; used plus missing codes never exceed the chosen codes |
| `PathDisplay.Parts` | app/ops/path_display.py:22-23 | a path's parts are its anchor, when it has one, followed by its names |
| `PathDisplay.Display` | app/ops/path_display.py:7-40 | a well-formed path and root display as a well-formed path |
| `PathDisplay.DisplayUnder` | app/ops/path_display.py:25-27 | a path under the root displays as the root joined with the remaining parts, which is the path itself |
| `PathDisplay.SameAnchor` | app/ops/path_display.py:25 | a path under a root with parts has the root's anchor |
| `PathDisplay.DisplayRoot` | app/ops/path_display.py:25-27 | the root displays as itself |
| `PathDisplay.DisplayElsewhere` | app/ops/path_display.py:32-40 | a path elsewhere with a final name displays as that name under the root; one without a name displays unchanged |
| `Retention.Folder.Sweep` | app/ops/cleanup_retention.py:14-29 | a missing folder changes nothing and counts 0; otherwise exactly the doomed entries are removed and counted |
| `Retention.SweepRemoves` | app/ops/cleanup_retention.py:19-28 | an entry goes iff it is a regular file strictly older than the cutoff whose removal does not fail; survivors are unchanged |
| `Retention.CutoffIsStrict` | app/ops/cleanup_retention.py:24 | a file modified exactly at the cutoff is kept |
| `Retention.CountWithoutFailures` | app/ops/cleanup_retention.py:19-29 | without failures the count is the number of old regular files, at most the entry count |
| `Retention.SweepIdempotent` | app/ops/cleanup_retention.py:14-29 | sweeping twice with the same cutoff deletes nothing the second time |
| `Retention.LaterCutoffDeletesMore` | app/ops/cleanup_retention.py:17-24 | a later cutoff deletes a superset of an earlier one's |
| `Retention.RetentionMain` | app/ops/cleanup_retention.py:32-57 | each of the three folders is swept with its own keep-days and its own failing entries; no folder is created or removed; the marker line carries the three counts; exit is 0 |
| `CleanupLogs.LogsMain` | app/ops/cleanup_logs.py:13-38 | a missing logs folder returns 0 without a marker; otherwise files older than 30 days are removed and counted, the marker line carries the count and keep_days=30; the folder is neither created nor removed; exit is 0 |

## Left out

- **Child processes.** `_run_subprocess` streaming, `Popen` and the log file contents in oneclick_daily_run.py are not modelled. A child job is only its exit code and the file map it leaves.
- **SHA-256.** `_sha256_file` is the parameter `digest`, applied to the file contents.
- **Clocks.** `datetime.now`, `fromisoformat`, `isoformat` and `strftime` of the current time are parameters.
- `RunSummary.Cell`, `CheckHealth.FailedMessage`, `HealthGate.FailedMessage`: a row is a map of strings. For a run_summary.csv row shorter than its header, `csv.DictReader` stores `None` under the missing columns, and the FAILED alert of check_health.py:90-93 and app/ops/health_gate.py:71-74 prints them as `None`, for example `mode=None` in check_health.py, `used_core=None` in health_gate.py, or `log=None`. The model prints empty text there. The comparisons are unaffected, since the source reads them through `or ""`.
- `RunSummary.ParseTs`: a timestamp is a number of seconds or nothing. A stamp with a UTC offset parses to an aware `datetime`. In check_health.py:87 and app/ops/health_gate.py:67 its comparison with the naive `now()` raises `TypeError` and ends the script with a traceback. The model has no such outcome: `iso` either gives a time or `None`.
- **JSON numbers.** `JsonValue.Json` holds integers only. A JSON number with a fraction or an exponent cannot be represented, for example a float value in `--artifacts_json` or a numeric cell of a TWSE table. `JsonValue.Str` therefore never yields Python's `str()` of a float.
- `JsonValue.Repr`: strings are always quoted with `'` and nothing is escaped. Python's `repr` switches to `"` when the text holds `'` but no `"`, and escapes backslashes and control characters.
- **Local time.** File modification times and cutoffs are integer seconds on one clock, so local time and daylight-saving shifts are not modelled.
- **Network.** `_http_get_json`, `fetch_for_date_*` (fetch_twse.py) and `_http_get_text` (fetch_tpex.py) are parameters that return a payload or `None` when they raise.
- **JSON and CSV libraries.** `json.loads` and `json.dumps` are the parameters `parse` and `dump`. The CSV reader of the backtest is the parameter `read`.
- **pandas.** pandas' CSV reading and writing are not modelled; a frame is a list of column names and a list of records. `pd.to_numeric` reads numbers and decimal text; other text becomes NaN.
- **Mixed-type sort columns.** When a sort column of the top-20 export mixes numbers and text, the model puts numbers before text. pandas raises a `TypeError` instead.
- **Float syntax.** `float()` is modelled on decimals with an optional sign, such as `-12`, `12.5` and `.5`. Exponents, `nan`, `inf` and digit underscores are read as unparsable. Only cells holding such text are affected.
- **Floating point.** Arithmetic is exact (`real`). In `sanity_dynamic` (prepare_input.py) `int(expected * 0.7)` truncates a binary floating product. For some counts that product falls just below the exact value: `70 * 0.7` is 48.99999999999999, which gives 48, while the model gives 49. A threshold can therefore differ by one row.
- **Text functions.** `str.isalnum`, `str.isdigit`, `str.upper` and `str.lower` act on ASCII only. Non-ASCII letters and digits are treated as other characters.
- **Backtest maths.** `_stats`, `_apply_costs`, the `net_ret` and equity-curve arithmetic and the report rows in strategy_with_risk.py are floating-point maths and are not modelled. Only the bookkeeping is.
- **Other scripts.** Report and chart generation (generate_report.py, generate_report_pdf.py, plot_equity_compare.py), daily_auto_run_final.py and the root strategy_score.py `runpy` trampoline are not part of this model.
- **File-system details.** Atomic rename, directory creation and the `time.sleep` backoff are not modelled. A write is a map update, and a failing attempt is an input. Only the retry count and the order of attempts are modelled.
- **Marker files.** The marker files of cleanup_retention.py and cleanup_logs.py are returned as strings, not written to a file map.
- **Paths.** Path strings are not parsed or rendered by `pathlib`. PathDisplay works on paths already split into an anchor and names.
- `Retention.RetentionMain`: requires the three folders to be distinct objects. When the configuration names the same folder twice, the script sweeps it twice, and the model does not cover that case.
- `Backtest.TopNSpec`: with `topN` < 1 the script still appends the first non-blank code before its bound check. The lemma states "at most one" for that case rather than naming the code.
