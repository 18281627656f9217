# MoneyPrinterTurbo job pipeline, modelled in Dafny

This project models the orchestrator of MoneyPrinterTurbo's video job
(`app/services/task.py`). It also proves what that orchestrator promises. One
call of `start(task_id, params, stop_at)` runs these stages in order:

1. script generation
2. search-term generation
3. writing `script.json`
4. text-to-speech
5. subtitles
6. footage
7. rendering the final videos

As it goes, it writes `(state, progress, fields)` updates to the job state
store. It stops early at the `stop_at` checkpoints and marks the job FAILED
when a stage gives nothing. The rendering step ends by cleaning the task
directory with a retry and back-off loop. After that, `start` appends one
export-ledger row per video and marks the job COMPLETE.

Modules:

- `Wrappers` holds `Option`.
- `Text` models the Python string operations the orchestrator uses: `str.strip`, the comma split of `re.split(r"[,，]", …)`, `", ".join`, the substring `in`, `str.lower`, integer formatting and `os.path.join`.
- `Job` models the job's values:
  - the update record (`Update`) and the parameters the orchestrator reads (`Params`);
  - the collaborator calls (`Call`) and their replies (`Replies`);
  - the job state store as a class whose log of updates grows in place (`StateStore`);
  - the collaborators as a class that records every call made on them (`Services`).
- `Terms` is the normalisation of `video_terms`.
- `Stages` holds the five stage helpers. Each is a function that gives the stage's value, its state updates and its calls. Each also has a method that performs those updates and calls on the state store and the collaborators.
- `Cleanup` is `safe_cleanup_task_dir`. The file system is an oracle, and the method records every sleep.
- `Export` is `save_video_export_data` over a `Ledger` class: the CSV file, its existence and its lines.
- `Finalize` is `generate_final_videos`. It covers the concat-mode choice, the progress bookkeeping of the rendering loop, the output paths, the upload and the cleanup call.
- `Task` is `start` itself:
  - `Run` is the whole run as a value: a `Trace` of updates, calls, export rows and the result. It is a chain of step functions `FromScript … FromFinal`, one per stage.
  - `Start` is the imperative run. Each `Run…Step` method is proved to leave the store, the call log and the ledger as `Apply(old state, FromX(...))`.
- `TaskProps` proves what every run promises:
  - the last update agrees with what `start` returns;
  - progress never goes down and stays between 5 and 100;
  - every checkpoint returns exactly its own keys;
  - the only exceptions that escape are the ones the orchestrator itself raises (collaborators are taken to return);
  - a full run writes the progress sequence 5, 10, 20, 30, 40, 50, then the loop's updates, then COMPLETE.

  It also proves a few particular runs.

Floating-point progress (`_progress += 50 / video_count / 2`) is modelled with
exact `real` arithmetic. `Replies` holds the collaborators' answers for one run:

- the language model's script and terms;
- the measured speech duration;
- the subtitle provider setting and the parsed subtitle line count;
- the local or downloaded footage;
- `add_hook_video`;
- `os.path.exists` on a final video;
- the file system seen by the cleanup.

## Model

| member | source | states |
|---|---|---|
| Job.StateStore.UpdateTask | app/services/task.py:346-347 | an update is appended to the job's log of updates, after all earlier ones |
| Text.Strip | app/services/task.py:20 | the stripped string starts and ends with a non-whitespace character, and is empty exactly when the input is all whitespace |
| Text.StripUnique | app/services/task.py:20 | stripping removes exactly the leading and trailing whitespace: for any split into a whitespace prefix, a core that starts and ends with non-whitespace, and a whitespace suffix, the result is that core |
| Text.StripIdempotent | app/services/task.py:20 | stripping twice is stripping once |
| Text.SplitRoundTrip | app/services/task.py:47-48 | interleaving the pieces with the separators that cut them gives back the original string, so no character is lost or reordered |
| Text.SplitAfterPiece | app/services/task.py:47-48 | a piece without an ASCII or full-width comma, a comma, then a rest splits into that piece followed by the rest's pieces |
| Text.ContainsWitness | app/services/task.py:354 | a substring test that succeeds has an index where the substring occurs |
| Text.Lower | app/services/task.py:105-106 | lower-casing keeps the length, turns each capital A–Z into its own small letter, and leaves every other character as it is |
| Text.ParseNatToString | app/services/task.py:294-295 | the decimal text of an output index reads back as that index |
| Text.NatToStringInjective | app/services/task.py:294-295 | different indices give different decimal texts |
| Text.JoinPathEndsWithName | app/services/task.py:294-295 | a joined path ends with the file name |
| Terms.NormalizeTerms | app/services/task.py:40-53 | a falsy value asks the generator for 5 terms and nothing else does; an unexpected shape (and only that) is a ValueError; a string gives one term per separator plus one; a list keeps its length; every supplied term is trimmed |
| Terms.SuppliedTermsInOrder | app/services/task.py:46-50 | the k-th term is the stripped k-th piece of the string or the stripped k-th element of the list |
| Terms.NormalizeIdempotent | app/services/task.py:46-50 | normalising the normalised terms again, given as a list, changes nothing |
| Terms.StripEachTrimmed | app/services/task.py:50 | stripping a list of already trimmed strings leaves it unchanged |
| Terms.PaddedWordsNormalize | app/services/task.py:46-48 | three words separated by commas and runs of whitespace come back as the three bare words |
| Text.StripIsSlice | app/services/task.py:20 | what stripping keeps is a slice of the input with only whitespace before and after it |
| Stages.ScriptStageSpec | app/services/task.py:18-35 | a supplied script is stripped and used without calling the generator; an empty one calls the generator; an empty one calls the generator and uses its script when that is not empty; the stage fails (one FAILED update, no value) exactly when both are empty |
| Stages.GenerateScript | app/services/task.py:18-35 | the method returns the stage's value and appends exactly the stage's updates and calls |
| Stages.TermsStageSpec | app/services/task.py:38-62 | an unexpected shape raises with no update or call; supplied terms are normalised without calling the generator; a falsy value calls it with amount 5 and uses its terms when they are not empty; FAILED is written exactly when no terms result |
| Stages.GenerateTerms | app/services/task.py:38-62 | the method returns the stage's outcome and appends exactly its updates and calls |
| Stages.Ceil | app/services/task.py:96 | the result is the least integer not below the measured duration |
| Stages.AudioStageSpec | app/services/task.py:77-97 | speech synthesis is always called; the stage fails with one FAILED update exactly when it returns nothing; otherwise the file is `audio.mp3` in the task directory and the duration is the ceiling of the measured one |
| Stages.GenerateAudio | app/services/task.py:77-97 | the method returns the stage's value and appends exactly its updates and calls |
| Stages.SubtitleStageSpec | app/services/task.py:100-129 | the stage never writes an update; disabled subtitles give "" with no call; the path is returned exactly when subtitles are enabled and the file parses to at least one line |
| Stages.SubtitleEngines | app/services/task.py:109-124 | Edge is used exactly when it is the provider; Whisper is used exactly when it is the provider or Edge left no file, and the correction runs exactly with Whisper; parsing the file comes last |
| Stages.GenerateSubtitle | app/services/task.py:100-129 | the method returns the stage's path and appends exactly its calls |
| Stages.MaterialsStageSpec | app/services/task.py:132-162 | local footage is preprocessed and other sources are downloaded with a budget of audio duration times video count; the stage fails with one FAILED update exactly when that gives nothing, and otherwise returns it |
| Stages.GetVideoMaterials | app/services/task.py:132-162 | the method returns the stage's value and appends exactly its updates and calls |
| Cleanup.SafeCleanupTaskDir | app/services/task.py:200-260 | at most `max_retries` attempts, each one but the last retried (missing directory, or a PermissionError before the last attempt); True exactly when `rmtree` succeeded; sleeps of 2 s, then `2**k` after each retried PermissionError; the entry-by-entry fallback runs exactly after a PermissionError on the last attempt |
| Cleanup.SweepEntries | app/services/task.py:234-251 | the fallback deletes exactly the removable entries, leaves the others in listing order, and removes the directory exactly when nothing is left and it is not locked |
| Cleanup.PartialCleanup | app/services/task.py:233-254 | a failing directory listing ends the fallback; otherwise it is the sweep of the listing |
| Cleanup.SweepPartitions | app/services/task.py:234-245 | deleted and kept entries together are the listing, as a multiset |
| Cleanup.SweepSeparates | app/services/task.py:234-245 | an entry is deleted exactly when its removal succeeded |
| Cleanup.WaitsDouble | app/services/task.py:222-228 | consecutive PermissionErrors from the first attempt wait 1, 2, 4, … seconds |
| Cleanup.AllRefusedWaits | app/services/task.py:214-231 | with five refused attempts the back-offs are 1, 2, 4, 8 seconds |
| Cleanup.RefusedTwiceThenRemoved | app/services/task.py:214-228 | two refusals before success wait 1 and 2 seconds |
| Cleanup.MissingDirNeverWaits | app/services/task.py:214-216 | a missing directory causes no back-off |
| Export.SubtitleContent | app/services/task.py:179 | the subtitle column is the script with its leading and trailing whitespace removed: a slice of the script with only whitespace before and after it, trimmed, and empty exactly when the script is all whitespace |
| Export.LinesFor | app/services/task.py:191-195 | a run appends one line per row, plus one header when the file is new and at least one row is written |
| Export.Ledger.SaveVideoExportData | app/services/task.py:165-197 | the ledger exists afterwards, and gains a header only when it did not exist, then the row |
| Export.LinesForAppend | app/services/task.py:458-459 | writing one more row extends the run's lines by its record, with the header in front only for the first row of a new file |
| Export.OneHeader | app/services/task.py:193-195 | a new ledger starts with exactly one header followed by the rows in order; an existing one gets no header |
| Export.TagsRoundTrip | app/services/task.py:172-176 | a list of terms joined with ", " normalises back to those terms, stripped |
| Export.SplitJoin | app/services/task.py:174 | splitting terms joined with ", " gives the first term, then every later term behind one space |
| Finalize.Step | app/services/task.py:291 | each half-step of progress is positive |
| Finalize.AccumulatedClosedForm | app/services/task.py:272-307 | after h half-steps the progress is 50 + h·(50/count/2) |
| Finalize.FullProgress | app/services/task.py:272-307 | after all outputs the progress is exactly 100 |
| Finalize.ProgressStrictlyRises | app/services/task.py:291-307 | progress strictly rises with every half-step |
| Finalize.ProgressBounded | app/services/task.py:272-307 | the loop's progress stays between 50 and 100 |
| Finalize.OutputPathsInOrder | app/services/task.py:273-319 | exactly `count` paths, the k-th being output k+1's |
| Finalize.LoopUpdatesProgress | app/services/task.py:273-307 | the loop writes two progress-only updates per output, the k-th at 50 + (k+1) half-steps |
| Finalize.LoopCallsShape | app/services/task.py:273-317 | the loop only combines, renders and adds hook clips, touches only outputs 1..count, combines in the chosen mode, hooks only when asked, and never cleans up |
| Finalize.EachOutputRendered | app/services/task.py:273-317 | every output is combined and rendered at least once, and hooked when asked |
| Finalize.FinalStageSpec | app/services/task.py:263-341 | UnboundLocalError exactly when upload is on and no output was made; TypeError exactly when upload is on and the last video exists; otherwise one path per output in index order; the task directory is cleaned exactly when paths are returned, as the last call; no collaborator other than the renderer and the cleanup is called; two progress-only updates per output |
| Finalize.SeveralOutputsCombineRandomly | app/services/task.py:267-269 | with a count other than 1 every combination is random |
| Finalize.SingleOutputKeepsMode | app/services/task.py:267-269 | with one output, its single combination uses the requested mode |
| Finalize.LoopEndsAtHundred | app/services/task.py:272-307 | the loop's last update is progress 100 and the updates strictly rise |
| Finalize.DistinctOutputPaths | app/services/task.py:294-295 | without the hook, different indices give different final paths |
| Finalize.OutputNameInjective | app/services/task.py:294-295 | different indices give different file names |
| Finalize.CombineOutput | app/services/task.py:280-292 | one combination call and one progress half-step |
| Finalize.RenderOutput | app/services/task.py:294-317 | the render call, the hook call when asked, one progress half-step, and the output's path |
| Finalize.RenderIteration | app/services/task.py:273-319 | one iteration moves progress from 2i-2 to 2i half-steps and appends exactly that iteration's updates and calls |
| Finalize.RenderOutputs | app/services/task.py:272-319 | the loop returns exactly the count paths in order and the last one, and appends exactly the loop's updates and calls |
| Finalize.GenerateFinalVideos | app/services/task.py:263-341 | the method's outcome, updates and calls are those of the final stage |
| Task.ParseStopAt | app/services/task.py:361-438 | each checkpoint name selects its checkpoint, and any other value runs to completion |
| Task.ParseConcatMode | app/services/task.py:349-350 | an enum member is kept, and a string is accepted exactly when it names a mode, which it then is |
| Task.ExportRows | app/services/task.py:170-184 | one export row per final path, in order (the loop at lines 458-459), carrying the task id, the subject as title, the tags column, the stripped script as subtitle, and that path |
| Task.Run | app/services/task.py:344-474 | the whole run of `start` as one trace of updates, calls, export rows and result; what it promises is stated by TaskProps.RunSound, RunOutcomeMatchesLastUpdate, RunProgressNeverDecreases, RunCheckpointKeys, CompletedRunUpdates, RunRaisedCauses and LocalSourceNeverAsksForTerms, and for particular runs by ScriptFailureStops, LocalSourceSkipsTerms, BadTermsRaise and DownloadBudget |
| Task.FromScript | app/services/task.py:352-474 | the run from the script step on; stated by TaskProps.ScriptSound, LocalScriptFixed and ScriptFailureStops |
| Task.FromTerms | app/services/task.py:361-474 | the run from the "script" checkpoint on; stated by TaskProps.TermsSound, LocalTermsFixed and BadTermsRaise |
| Task.FromSave | app/services/task.py:375-474 | the run from the write of `script.json` on; stated by TaskProps.SaveSound and SaveFixed |
| Task.FromAudio | app/services/task.py:386-474 | the run from the narration on; stated by TaskProps.AudioSound and AudioFixed |
| Task.FromSubtitle | app/services/task.py:406-474 | the run from the subtitles on; stated by TaskProps.SubtitleSound and SubtitleFixed |
| Task.FromMaterials | app/services/task.py:423-474 | the run from the footage on; stated by TaskProps.MaterialsSound, MaterialsFixed and DownloadBudget |
| Task.FromFinal | app/services/task.py:443-474 | the rendering step, the export and COMPLETE; stated by TaskProps.FinalSound and FinalFixed |
| Task.Start | app/services/task.py:344-474 | the imperative run returns `Run`'s result and leaves the store, the call log and the ledger as `Run` describes |
| Task.RunScriptStep | app/services/task.py:352-359 | the script step's effects and result are those of `FromScript` |
| Task.RunTermsStep | app/services/task.py:361-373 | the terms step's effects and result are those of `FromTerms` |
| Task.RunSaveStep | app/services/task.py:375-384 | the save step's effects and result are those of `FromSave` |
| Task.RunAudioStep | app/services/task.py:386-404 | the audio step's effects and result are those of `FromAudio` |
| Task.RunSubtitleStep | app/services/task.py:406-421 | the subtitle step's effects and result are those of `FromSubtitle` |
| Task.RunMaterialsStep | app/services/task.py:423-441 | the footage step's effects and result are those of `FromMaterials` |
| Task.RunFinalStep | app/services/task.py:443-474 | the final step's effects and result are those of `FromFinal` |
| Task.FinishRun | app/services/task.py:457-474 | export rows are appended and COMPLETE is written with the run's fields, which are returned |
| Task.ExportAll | app/services/task.py:457-459 | one ledger record per row, with one header first if the ledger was new |
| TaskProps.ScriptSound | app/services/task.py:352-474 | from the script step on, the run ends as it returns, progress rises from 10, checkpoints return their keys, and exceptions have known causes |
| TaskProps.TermsSound | app/services/task.py:361-474 | the same from the terms step on |
| TaskProps.SaveSound | app/services/task.py:375-474 | the same from the `script.json` write on |
| TaskProps.AudioSound | app/services/task.py:386-474 | the same from the audio step on |
| TaskProps.SubtitleSound | app/services/task.py:406-474 | the same from the subtitle step on |
| TaskProps.MaterialsSound | app/services/task.py:423-474 | the same from the footage step on |
| TaskProps.FinalSound | app/services/task.py:443-474 | the same for the final step, whose updates are the loop's followed by COMPLETE |
| TaskProps.RunSound | app/services/task.py:344-474 | the same for the whole run |
| TaskProps.RunStartsProcessing | app/services/task.py:346-347 | every run first writes PROCESSING at 5 |
| TaskProps.RunOutcomeMatchesLastUpdate | app/services/task.py:344-474 | fields are returned exactly when the last update is COMPLETE, which is at 100 with no terminal update before it; None is returned exactly when the last update is FAILED; a raising run writes no terminal state |
| TaskProps.RunProgressNeverDecreases | app/services/task.py:346-441 | progress never decreases and stays between 5 and 100 |
| TaskProps.RunCheckpointKeys | app/services/task.py:361-474 | returned fields have exactly the checkpoint's keys: {script}, {script, terms}, {audio_file, audio_duration}, {subtitle_path}, {materials}, or for a full run {videos, script, terms, audio_duration, materials} |
| TaskProps.CompletedRunUpdates | app/services/task.py:346-474 | a full run that returns writes PROCESSING at 5, 10, 20, 30, 40, 50, the loop's updates, then COMPLETE; export rows are written exactly by such runs, one per returned video in the returned order, built from the returned script |
| TaskProps.RunRaisedCauses | app/services/task.py:344-474 | an exception escapes only for an unknown concat mode, terms of an unexpected shape, or an enabled upload |
| TaskProps.ErrorMarkerAnywhere | app/services/task.py:354 | the error check fires wherever "Error: " occurs in the script, not only at its start |
| TaskProps.ScriptFailureStops | app/services/task.py:352-356 | without a usable script the run is PROCESSING at 5, the stage's updates and FAILED, with no call beyond the script stage's and no payload |
| TaskProps.RunRows | app/services/task.py:344-474 | for every `stop_at`, a run that returns its videos appended exactly one export row per returned video, in order, built from the task id, the request and the returned script; any other run appended none |
| TaskProps.LocalTermsCheckpoint | app/services/task.py:367-381 | with local footage, the "terms" checkpoint writes `script.json` and returns the script and empty terms |
| TaskProps.FinalFixed | app/services/task.py:443-474 | the rendering step never asks for terms, and a finished run's COMPLETE update and returned fields show the terms it was given |
| TaskProps.MaterialsFixed | app/services/task.py:423-474 | the same from the footage step on |
| TaskProps.SubtitleFixed | app/services/task.py:406-474 | the same from the subtitle step on |
| TaskProps.AudioFixed | app/services/task.py:386-474 | the same from the audio step on |
| TaskProps.SaveFixed | app/services/task.py:375-474 | from the write of `script.json` on, the terms are never asked for again, and every update and returned field that shows the terms shows the saved ones |
| TaskProps.LocalTermsFixed | app/services/task.py:361-474 | with local footage, from the "script" checkpoint on, the terms are never asked for and are shown only as "" |
| TaskProps.LocalScriptFixed | app/services/task.py:352-474 | the same from the script step on |
| TaskProps.LocalSourceNeverAsksForTerms | app/services/task.py:367-375 | with local footage, for every `stop_at`, the run never asks the language model for terms, and every update and returned field that shows the terms (the "terms" checkpoint, a full run's COMPLETE and its result) shows "" |
| TaskProps.LocalSourceSkipsTerms | app/services/task.py:367-381 | with local footage and `stop_at` "terms", the whole run never asks for terms and writes PROCESSING 5, 10, then COMPLETE |
| TaskProps.BadTermsRaise | app/services/task.py:46-53 | terms of an unexpected shape make the run raise ValueError after PROCESSING at 5 and 10, with no terminal state |
| TaskProps.DownloadBudget | app/services/task.py:147-155 | a run that reaches the download asks for footage for the rounded-up narration length times the video count |

## Left out

- File I/O is abstract.
  - The content of `script.json` is not modelled; the model only records the write as a call.
  - CSV quoting and the `export_date` timestamp are not modelled.
  - `shutil.rmtree`, `os.listdir`, `os.remove` and `os.rmdir` are oracle answers.
  - `time.sleep` is recorded as a list of durations.
  - `gc.collect()` and logging are omitted.
- Progress is exact `real` arithmetic, not Python floats. Rounding in `50 / video_count / 2` is not captured.
- TaskProps.RunRaisedCauses: every collaborator (`llm`, `voice.tts`, `subtitle`, `material`, `video.combine_videos`, `video.generate_video`, `video.add_hook_video`) and every file write (`script.json`, the export ledger) is taken to return. In the source, an exception from any of them escapes `start` just as the ValueError does, with no FAILED update. The model does not cover those exceptions, so "only known causes" holds only under this assumption.
- Text.Lower: only ASCII letters are lower-cased. Python's `str.lower` also folds other scripts, but that makes no difference for the provider names compared here.
- The internals of `llm`, `voice`, `subtitle`, `material`, `video`, `config` and `utils` are not part of this model. Their answers for one run are the fields of `Replies`.
- `app/services/state.py` is not part of this model. The state store is the log of updates written for this job.
- `app/models/schema.py` is not part of this model.
  - `VideoConcatMode` is assumed to have exactly the values "random" and "sequential".
  - `VideoParams` is reduced to the fields the orchestrator reads itself.
- `app/services/youtube.py` is not part of this model. Only the call site matters: its extra `tags=` argument raises TypeError before the upload function runs. Hence `Finalize.FinalStageSpec` states a TypeError whenever upload is on and the last video exists, and upload is not best-effort.
- The Streamlit page is not modelled.
- Concurrency across jobs in the state store is not modelled. One run covers one job.
- Stages.Ceil: the measured audio duration is taken to be a finite number. `math.ceil` would raise ValueError on NaN and OverflowError on infinity, and those errors are not modelled.
- A list of terms is assumed to hold strings, as `.strip()` on its elements requires.
- Terms that normalise to blank strings, such as "," or `["  "]`, still make a non-empty list. The orchestrator goes on with them, and so does the model.
- Task.Start: the return value of `safe_cleanup_task_dir` is ignored by `generate_final_videos`, so the run only records the cleanup call. `Cleanup.SafeCleanupTaskDir` is modelled and proved on its own.
- Task.Start: the state store, the collaborators' call log and the export ledger are separate logs. The model states the contents of each, but not their interleaving. That the export rows are written before the COMPLETE update holds by the order of statements in `FinishRun`, but no contract states it.
- TaskProps.RunOutcomeMatchesLastUpdate: at a checkpoint, the fields shown in the COMPLETE update can differ from the fields returned. For example, "terms" shows only the terms and "audio" shows only the file. Only the returned keys are stated (`TaskProps.RunCheckpointKeys`).
- The model follows the code, including these behaviours a reader of the code might not expect:
  - a failing script stage writes FAILED twice, once in the helper and once in `start`; the terms, audio and footage stages do the same; a script holding the "Error: " marker and an empty result of the final stage each write FAILED once;
  - a ValueError from terms of an unexpected shape escapes `start` without marking the job failed;
  - the cleanup back-off waits 1, 2, 4, 8 seconds, not the 2, 4, 8, 16 of the source comment;
  - an enabled upload with `video_count <= 0` raises UnboundLocalError, because `final_video_path` is never bound.
