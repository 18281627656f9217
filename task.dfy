/**
  `start(task_id, params, stop_at)`: the pipeline run. It marks the job as
  processing, runs the stages in order, stops at a checkpoint when `stop_at`
  names one, and otherwise renders the videos, writes one export row per
  video and marks the job complete with its results. Any stage failure
  marks the job as failed and ends the run without a result.

  The run is specified by `Run`, which follows `start` from step to step
  (`FromScript` to `FromFinal`, one function per stretch of `start` between
  two stages) and gives the `Trace` of the whole run. `Start` and the methods for each step are
  proved to perform exactly that trace on the state store, the
  collaborators and the export ledger.
 */
module Task {
  import opened Wrappers
  import opened Text
  import opened Job
  import opened Stages
  import Export
  import Finalize

  /** Where `stop_at` ends a run: after one of the stages, or (for any
      other value, "video" by default) only after the videos. */
  datatype StopAt = StopScript | StopTerms | StopAudio | StopSubtitle | StopMaterials | StopNever

  /** The `stop_at` value of each checkpoint. */
  function StopName(s: StopAt): string {
    match s
    case StopScript => "script"
    case StopTerms => "terms"
    case StopAudio => "audio"
    case StopSubtitle => "subtitle"
    case StopMaterials => "materials"
    case StopNever => "video"
  }

  /** The checkpoint a `stop_at` value names. */
  function ParseStopAt(stopAt: string): (s: StopAt)
    ensures s != StopNever ==> StopName(s) == stopAt
    ensures s == StopNever ==> forall c :: c != StopNever ==> StopName(c) != stopAt
  {
    if stopAt == StopName(StopScript) then StopScript
    else if stopAt == StopName(StopTerms) then StopTerms
    else if stopAt == StopName(StopAudio) then StopAudio
    else if stopAt == StopName(StopSubtitle) then StopSubtitle
    else if stopAt == StopName(StopMaterials) then StopMaterials
    else StopNever
  }

  /** The marker of a language-model error message inside a script. */
  const ErrorMarker := "Error: "

  /** The values of the `VideoConcatMode` members. */
  function ModeValue(m: ConcatMode): string {
    match m
    case Random => "random"
    case Sequential => "sequential"
  }

  /** `VideoConcatMode(value)` when the parameter is a plain string; an
      enum member is kept. None stands for the ValueError of an unknown value. */
  function ParseConcatMode(m: ConcatModeInput): (r: Option<ConcatMode>)
    ensures m.ModeMember? ==> r == Some(m.mode)
    ensures m.ModeText? ==> (r.Some? <==> exists c :: ModeValue(c) == m.text)
    ensures m.ModeText? && r.Some? ==> ModeValue(r.value) == m.text
  {
    match m
    case ModeMember(c) => Some(c)
    case ModeText(s) =>
      if s == ModeValue(Random) then Some(Random)
      else if s == ModeValue(Sequential) then Some(Sequential)
      else None
  }

  /** Everything a run (or the rest of one) does: the updates written to the
      job's state, the calls on collaborators, the export rows written, and
      what `start` gives back. */
  datatype Trace = Trace(updates: seq<Update>, calls: seq<Call>, rows: seq<Export.ExportRow>, result: RunResult)

  /** `t` preceded by updates `us` and calls `cs`. */
  function Prepend(us: seq<Update>, cs: seq<Call>, t: Trace): Trace {
    Trace(us + t.updates, cs + t.calls, t.rows, t.result)
  }

  /** A run that ends at a checkpoint: complete at 100 with `shown` in the
      job's state, returning `returned`. */
  function Checkpoint(shown: map<Field, Value>, returned: map<Field, Value>): Trace {
    Trace([Completed(shown)], [], [], Payload(returned))
  }

  /** A stage that failed: its own updates and calls, then FAILED once more. */
  function StageFailed(us: seq<Update>, cs: seq<Call>): Trace {
    Trace(us + [FailedUpdate], cs, [], NoPayload)
  }

  /** The export rows of a finished run, one per video in order. */
  function ExportRows(taskId: string, p: Params, paths: seq<string>, script: string): (rows: seq<Export.ExportRow>)
    ensures |rows| == |paths|
    ensures forall k :: 0 <= k < |rows| ==> rows[k].videoPath == paths[k] && rows[k].taskId == taskId
    ensures forall k :: 0 <= k < |rows| ==>
              rows[k].title == p.subject && rows[k].tags == Export.Tags(p.terms)
              && rows[k].subtitle == Export.SubtitleContent(script)
  {
    seq(|paths|, k requires 0 <= k < |paths| => Export.MakeRow(taskId, p, paths[k], script))
  }

  /** What a finished run stores and returns. */
  function Results(paths: seq<string>, script: string, terms: Value, audio: Audio, materials: seq<string>): map<Field, Value> {
    map[VideosKey := Texts(paths), ScriptKey := Text(script), TermsKey := terms,
        AudioDurationKey := Count(audio.duration), MaterialsKey := Texts(materials)]
  }

  /** The whole run of `start(task_id, params, stop_at)`. */
  function Run(r: Replies, taskId: string, p: Params, stopAt: string): Trace {
    Prepend([Progressing(5.0)], [],
      match ParseConcatMode(p.concatMode)
      case None => Trace([], [], [], Raised(ValueError))
      case Some(mode) => FromScript(r, taskId, p, ParseStopAt(stopAt), mode))
  }

  /** Step 1: the script; a missing script or one holding an error message fails the run. */
  function FromScript(r: Replies, taskId: string, p: Params, stopAt: StopAt, mode: ConcatMode): Trace
  {
    var st := ScriptStage(r, p);
    if st.out.None? || Contains(st.out.value, ErrorMarker) then StageFailed(st.updates, st.calls)
    else Prepend(st.updates + [Progressing(10.0)], st.calls, FromTerms(r, taskId, p, stopAt, mode, st.out.value))
  }

  /** The `script` checkpoint, then step 2: the terms, skipped for local footage. */
  function FromTerms(r: Replies, taskId: string, p: Params, stopAt: StopAt, mode: ConcatMode, script: string): Trace
  {
    if stopAt == StopScript then Checkpoint(map[ScriptKey := Text(script)], map[ScriptKey := Text(script)])
    else if p.source == LocalSource then FromSave(r, taskId, p, stopAt, mode, script, Text([]))
    else
      var st := TermsStage(r, p);
      match st.out
      case TermsRaised => Trace(st.updates, st.calls, [], Raised(ValueError))
      case TermsNone => StageFailed(st.updates, st.calls)
      case TermsOk(ts) => Prepend(st.updates, st.calls, FromSave(r, taskId, p, stopAt, mode, script, Texts(ts)))
  }

  /** `script.json` is written, then the `terms` checkpoint. */
  function FromSave(r: Replies, taskId: string, p: Params, stopAt: StopAt, mode: ConcatMode, script: string, terms: Value): Trace
  {
    if stopAt == StopTerms then
      Prepend([], [SaveScriptData], Checkpoint(map[TermsKey := terms], map[ScriptKey := Text(script), TermsKey := terms]))
    else Prepend([Progressing(20.0)], [SaveScriptData], FromAudio(r, taskId, p, stopAt, mode, script, terms))
  }

  /** Step 3: the narration, then the `audio` checkpoint. */
  function FromAudio(r: Replies, taskId: string, p: Params, stopAt: StopAt, mode: ConcatMode, script: string, terms: Value): Trace
  {
    var st := AudioStage(r, p);
    if st.out.None? then StageFailed(st.updates, st.calls)
    else if stopAt == StopAudio then
      var audio := st.out.value;
      Prepend(st.updates + [Progressing(30.0)], st.calls,
        Checkpoint(map[AudioFileKey := Text(audio.file)],
                   map[AudioFileKey := Text(audio.file), AudioDurationKey := Count(audio.duration)]))
    else Prepend(st.updates + [Progressing(30.0)], st.calls, FromSubtitle(r, taskId, p, stopAt, mode, script, terms, st.out.value))
  }

  /** Step 4: the subtitles, which never fail the run, then the `subtitle` checkpoint. */
  function FromSubtitle(r: Replies, taskId: string, p: Params, stopAt: StopAt, mode: ConcatMode, script: string,
                        terms: Value, audio: Audio): Trace
  {
    var st := SubtitleStage(r, p);
    if stopAt == StopSubtitle then
      Prepend(st.updates, st.calls, Checkpoint(map[SubtitlePathKey := Text(st.out)], map[SubtitlePathKey := Text(st.out)]))
    else Prepend(st.updates + [Progressing(40.0)], st.calls, FromMaterials(r, taskId, p, stopAt, mode, script, terms, audio))
  }

  /** Step 5: the footage, then the `materials` checkpoint. */
  function FromMaterials(r: Replies, taskId: string, p: Params, stopAt: StopAt, mode: ConcatMode, script: string,
                         terms: Value, audio: Audio): Trace
  {
    var st := MaterialsStage(r, p, terms, audio.duration);
    if st.out.None? then StageFailed(st.updates, st.calls)
    else if stopAt == StopMaterials then
      Prepend(st.updates, st.calls, Checkpoint(map[MaterialsKey := Texts(st.out.value)], map[MaterialsKey := Texts(st.out.value)]))
    else Prepend(st.updates + [Progressing(50.0)], st.calls, FromFinal(r, taskId, p, mode, script, terms, audio, st.out.value))
  }

  /** Step 6: the videos; no video at all fails the run, otherwise every video
      is exported and the job completes with the results. */
  function FromFinal(r: Replies, taskId: string, p: Params, mode: ConcatMode, script: string,
                     terms: Value, audio: Audio, materials: seq<string>): Trace
  {
    var st := Finalize.FinalStage(r, taskId, p, mode);
    match st.out
    case FinalRaised(e) => Trace(st.updates, st.calls, [], Raised(e))
    case Videos(paths) =>
      if paths == [] then StageFailed(st.updates, st.calls)
      else
        Prepend(st.updates, st.calls, Finished(taskId, p, paths, script, Results(paths, script, terms, audio, materials)))
  }

  /** The end of a run that rendered `paths`: one export row per video, then
      the job completes with `fields`, which are also returned. */
  function Finished(taskId: string, p: Params, paths: seq<string>, script: string, fields: map<Field, Value>): Trace {
    Trace([Completed(fields)], [], ExportRows(taskId, p, paths, script), Payload(fields))
  }

  // ---------------------------------------------------------------------
  // The run, step by step.

  /** What a run changes, seen as one value: the job's update log, the
      collaborators' call log and the export ledger. */
  datatype World = World(log: seq<Update>, calls: seq<Call>, lines: seq<Export.Line>, present: bool)

  function WorldOf(store: StateStore, env: Services, ledger: Export.Ledger): World
    reads store, env, ledger
  {
    World(store.log, env.calls, ledger.lines, ledger.present)
  }

  /** `w` after the updates `us` and the calls `cs`. */
  function Emit(w: World, us: seq<Update>, cs: seq<Call>): World {
    World(w.log + us, w.calls + cs, w.lines, w.present)
  }

  /** `w` after the whole trace `t`. */
  function Apply(w: World, t: Trace): World {
    World(w.log + t.updates, w.calls + t.calls, w.lines + Export.LinesFor(w.present, t.rows), w.present || t.rows != [])
  }

  /** One more update after some updates and calls. */
  lemma EmitUpdate(w: World, us: seq<Update>, cs: seq<Call>, u: Update)
    ensures Emit(Emit(w, us, cs), [u], []) == Emit(w, us + [u], cs)
  {
    assert cs + [] == cs;
  }

  /** A trace without rows does what its updates and calls do. */
  lemma ApplyNoRows(w: World, t: Trace)
    requires t.rows == []
    ensures Apply(w, t) == Emit(w, t.updates, t.calls)
  {
    assert w.lines + [] == w.lines;
  }

  /** Running `Prepend(us, cs, t)` is emitting `us` and `cs`, then running `t`. */
  lemma ApplyPrepend(w: World, us: seq<Update>, cs: seq<Call>, t: Trace)
    ensures Apply(w, Prepend(us, cs, t)) == Apply(Emit(w, us, cs), t)
  {
    assert w.log + (us + t.updates) == w.log + us + t.updates;
    assert w.calls + (cs + t.calls) == w.calls + cs + t.calls;
  }

  // The step functions case by case, in the form the step methods follow:
  // each ending is a flat trace, each continuation a `Prepend` of the next
  // step.

  lemma RunCases(r: Replies, taskId: string, p: Params, stopAt: string)
    ensures var t := Run(r, taskId, p, stopAt);
            (ParseConcatMode(p.concatMode).None? ==> t == Trace([Progressing(5.0)], [], [], Raised(ValueError)))
            && (ParseConcatMode(p.concatMode).Some? ==>
                 t == Prepend([Progressing(5.0)], [], FromScript(r, taskId, p, ParseStopAt(stopAt), ParseConcatMode(p.concatMode).value)))
  {
  }

  lemma FromScriptCases(r: Replies, taskId: string, p: Params, stopAt: StopAt, mode: ConcatMode)
    ensures var st := ScriptStage(r, p);
            var t := FromScript(r, taskId, p, stopAt, mode);
            (st.out.None? || Contains(st.out.value, ErrorMarker) ==> t == StageFailed(st.updates, st.calls))
            && (st.out.Some? && !Contains(st.out.value, ErrorMarker) ==>
                 t == Prepend(st.updates + [Progressing(10.0)], st.calls, FromTerms(r, taskId, p, stopAt, mode, st.out.value)))
  {
  }

  lemma FromTermsCases(r: Replies, taskId: string, p: Params, stopAt: StopAt, mode: ConcatMode, script: string)
    ensures var st := TermsStage(r, p);
            var t := FromTerms(r, taskId, p, stopAt, mode, script);
            (stopAt == StopScript ==>
               t == Trace([Completed(map[ScriptKey := Text(script)])], [], [], Payload(map[ScriptKey := Text(script)])))
            && (stopAt != StopScript && p.source == LocalSource ==> t == FromSave(r, taskId, p, stopAt, mode, script, Text([])))
            && (stopAt != StopScript && p.source != LocalSource && st.out.TermsRaised? ==>
                 t == Trace(st.updates, st.calls, [], Raised(ValueError)))
            && (stopAt != StopScript && p.source != LocalSource && st.out.TermsNone? ==>
                 t == StageFailed(st.updates, st.calls))
            && (stopAt != StopScript && p.source != LocalSource && st.out.TermsOk? ==>
                 t == Prepend(st.updates, st.calls, FromSave(r, taskId, p, stopAt, mode, script, Texts(st.out.terms))))
  {
  }

  lemma FromSaveCases(r: Replies, taskId: string, p: Params, stopAt: StopAt, mode: ConcatMode, script: string, terms: Value)
    ensures var t := FromSave(r, taskId, p, stopAt, mode, script, terms);
            (stopAt == StopTerms ==>
               t == Prepend([], [SaveScriptData], Checkpoint(map[TermsKey := terms], map[ScriptKey := Text(script), TermsKey := terms])))
            && (stopAt != StopTerms ==>
                 t == Prepend([Progressing(20.0)], [SaveScriptData], FromAudio(r, taskId, p, stopAt, mode, script, terms)))
  {
  }

  lemma FromAudioCases(r: Replies, taskId: string, p: Params, stopAt: StopAt, mode: ConcatMode, script: string, terms: Value)
    ensures var st := AudioStage(r, p);
            var t := FromAudio(r, taskId, p, stopAt, mode, script, terms);
            (st.out.None? ==> t == StageFailed(st.updates, st.calls))
            && (st.out.Some? && stopAt == StopAudio ==>
                 t == Prepend(st.updates + [Progressing(30.0)], st.calls,
                              Checkpoint(map[AudioFileKey := Text(st.out.value.file)],
                                         map[AudioFileKey := Text(st.out.value.file), AudioDurationKey := Count(st.out.value.duration)])))
            && (st.out.Some? && stopAt != StopAudio ==>
                 t == Prepend(st.updates + [Progressing(30.0)], st.calls, FromSubtitle(r, taskId, p, stopAt, mode, script, terms, st.out.value)))
  {
  }

  lemma FromSubtitleCases(r: Replies, taskId: string, p: Params, stopAt: StopAt, mode: ConcatMode, script: string,
                          terms: Value, audio: Audio)
    ensures var st := SubtitleStage(r, p);
            var t := FromSubtitle(r, taskId, p, stopAt, mode, script, terms, audio);
            (stopAt == StopSubtitle ==>
               t == Prepend(st.updates, st.calls, Checkpoint(map[SubtitlePathKey := Text(st.out)], map[SubtitlePathKey := Text(st.out)])))
            && (stopAt != StopSubtitle ==>
                 t == Prepend(st.updates + [Progressing(40.0)], st.calls, FromMaterials(r, taskId, p, stopAt, mode, script, terms, audio)))
  {
  }

  lemma FromMaterialsCases(r: Replies, taskId: string, p: Params, stopAt: StopAt, mode: ConcatMode, script: string,
                           terms: Value, audio: Audio)
    ensures var st := MaterialsStage(r, p, terms, audio.duration);
            var t := FromMaterials(r, taskId, p, stopAt, mode, script, terms, audio);
            (st.out.None? ==> t == StageFailed(st.updates, st.calls))
            && (st.out.Some? && stopAt == StopMaterials ==>
                 t == Prepend(st.updates, st.calls, Checkpoint(map[MaterialsKey := Texts(st.out.value)], map[MaterialsKey := Texts(st.out.value)])))
            && (st.out.Some? && stopAt != StopMaterials ==>
                 t == Prepend(st.updates + [Progressing(50.0)], st.calls, FromFinal(r, taskId, p, mode, script, terms, audio, st.out.value)))
  {
  }

  lemma FromFinalCases(r: Replies, taskId: string, p: Params, mode: ConcatMode, script: string,
                       terms: Value, audio: Audio, materials: seq<string>)
    ensures var st := Finalize.FinalStage(r, taskId, p, mode);
            var t := FromFinal(r, taskId, p, mode, script, terms, audio, materials);
            (st.out.FinalRaised? ==> t == Trace(st.updates, st.calls, [], Raised(st.out.exc)))
            && (st.out == Finalize.Videos([]) ==> t == StageFailed(st.updates, st.calls))
            && (st.out.Videos? && st.out.paths != [] ==>
                 t == Prepend(st.updates, st.calls, Finished(taskId, p, st.out.paths, script, Results(st.out.paths, script, terms, audio, materials))))
  {
  }

  /** A run that ends at a checkpoint after `us` and `cs`. */
  lemma ApplyCheckpoint(w: World, us: seq<Update>, cs: seq<Call>, shown: map<Field, Value>, returned: map<Field, Value>)
    ensures Apply(w, Prepend(us, cs, Checkpoint(shown, returned))) == Emit(Emit(w, us, cs), [Completed(shown)], [])
  {
    ApplyPrepend(w, us, cs, Checkpoint(shown, returned));
    ApplyNoRows(Emit(w, us, cs), Checkpoint(shown, returned));
    EmitUpdate(w, us, cs, Completed(shown));
  }

  /** A stage that failed after `us` and `cs`. */
  lemma ApplyFailed(w: World, us: seq<Update>, cs: seq<Call>)
    ensures Apply(w, StageFailed(us, cs)) == Emit(Emit(w, us, cs), [FailedUpdate], [])
  {
    ApplyNoRows(w, StageFailed(us, cs));
    EmitUpdate(w, us, cs, FailedUpdate);
  }

  /** `start(task_id, params, stop_at)`. */
  method Start(store: StateStore, env: Services, ledger: Export.Ledger, taskId: string, p: Params, stopAt: string)
    returns (result: RunResult)
    requires ledger.Valid()
    modifies store, env, ledger
    ensures ledger.Valid()
    ensures result == Run(env.replies, taskId, p, stopAt).result
    ensures WorldOf(store, env, ledger) == Apply(old(WorldOf(store, env, ledger)), Run(env.replies, taskId, p, stopAt))
  {
    ghost var w0 := WorldOf(store, env, ledger);
    RunCases(env.replies, taskId, p, stopAt);
    store.UpdateTask(Progressing(5.0));
    assert WorldOf(store, env, ledger) == Emit(w0, [Progressing(5.0)], []) by {
      assert w0.calls + [] == w0.calls;
    }
    var mode: ConcatMode;
    match p.concatMode {
      case ModeMember(c) =>
        mode := c;
      case ModeText(s) =>
        if s == ModeValue(Random) {
          mode := Random;
        } else if s == ModeValue(Sequential) {
          mode := Sequential;
        } else {
          ApplyNoRows(w0, Trace([Progressing(5.0)], [], [], Raised(ValueError)));
          return Raised(ValueError);
        }
    }
    result := RunScriptStep(store, env, ledger, taskId, p, ParseStopAt(stopAt), mode);
    ApplyPrepend(w0, [Progressing(5.0)], [], FromScript(env.replies, taskId, p, ParseStopAt(stopAt), mode));
  }

  /** Step 1: the script. */
  method RunScriptStep(store: StateStore, env: Services, ledger: Export.Ledger, taskId: string, p: Params,
      stopAt: StopAt, mode: ConcatMode)
    returns (result: RunResult)
    requires ledger.Valid()
    modifies store, env, ledger
    ensures ledger.Valid()
    ensures result == FromScript(env.replies, taskId, p, stopAt, mode).result
    ensures WorldOf(store, env, ledger) == Apply(old(WorldOf(store, env, ledger)), FromScript(env.replies, taskId, p, stopAt, mode))
  {
    ghost var w0 := WorldOf(store, env, ledger);
    ghost var st := ScriptStage(env.replies, p);
    FromScriptCases(env.replies, taskId, p, stopAt, mode);
    var script := GenerateScript(store, env, p);
    assert WorldOf(store, env, ledger) == Emit(w0, st.updates, st.calls);
    if script.None? || Contains(script.value, ErrorMarker) {
      store.UpdateTask(FailedUpdate);
      ApplyFailed(w0, st.updates, st.calls);
      return NoPayload;
    }
    store.UpdateTask(Progressing(10.0));
    EmitUpdate(w0, st.updates, st.calls, Progressing(10.0));
    result := RunTermsStep(store, env, ledger, taskId, p, stopAt, mode, script.value);
    ApplyPrepend(w0, st.updates + [Progressing(10.0)], st.calls, FromTerms(env.replies, taskId, p, stopAt, mode, script.value));
  }

  /** The `script` checkpoint, then step 2: the terms. */
  method RunTermsStep(store: StateStore, env: Services, ledger: Export.Ledger, taskId: string, p: Params,
      stopAt: StopAt, mode: ConcatMode, script: string)
    returns (result: RunResult)
    requires ledger.Valid()
    modifies store, env, ledger
    ensures ledger.Valid()
    ensures result == FromTerms(env.replies, taskId, p, stopAt, mode, script).result
    ensures WorldOf(store, env, ledger) == Apply(old(WorldOf(store, env, ledger)), FromTerms(env.replies, taskId, p, stopAt, mode, script))
  {
    ghost var w0 := WorldOf(store, env, ledger);
    ghost var st := TermsStage(env.replies, p);
    FromTermsCases(env.replies, taskId, p, stopAt, mode, script);
    if stopAt == StopScript {
      var shown := map[ScriptKey := Text(script)];
      store.UpdateTask(Completed(shown));
      assert WorldOf(store, env, ledger) == Emit(w0, [Completed(shown)], []) by {
        assert w0.calls + [] == w0.calls;
      }
      ApplyNoRows(w0, Trace([Completed(shown)], [], [], Payload(shown)));
      return Payload(shown);
    }
    if p.source == LocalSource {
      result := RunSaveStep(store, env, ledger, taskId, p, stopAt, mode, script, Text([]));
      return;
    }
    var out := GenerateTerms(store, env, p);
    assert WorldOf(store, env, ledger) == Emit(w0, st.updates, st.calls);
    match out {
      case TermsRaised =>
        ApplyNoRows(w0, Trace(st.updates, st.calls, [], Raised(ValueError)));
        return Raised(ValueError);
      case TermsNone =>
        store.UpdateTask(FailedUpdate);
        ApplyFailed(w0, st.updates, st.calls);
        return NoPayload;
      case TermsOk(ts) =>
        result := RunSaveStep(store, env, ledger, taskId, p, stopAt, mode, script, Texts(ts));
        ApplyPrepend(w0, st.updates, st.calls, FromSave(env.replies, taskId, p, stopAt, mode, script, Texts(ts)));
    }
  }

  /** `save_script_data`, then the `terms` checkpoint. */
  method RunSaveStep(store: StateStore, env: Services, ledger: Export.Ledger, taskId: string, p: Params,
      stopAt: StopAt, mode: ConcatMode, script: string, terms: Value)
    returns (result: RunResult)
    requires ledger.Valid()
    modifies store, env, ledger
    ensures ledger.Valid()
    ensures result == FromSave(env.replies, taskId, p, stopAt, mode, script, terms).result
    ensures WorldOf(store, env, ledger) == Apply(old(WorldOf(store, env, ledger)), FromSave(env.replies, taskId, p, stopAt, mode, script, terms))
  {
    ghost var w0 := WorldOf(store, env, ledger);
    FromSaveCases(env.replies, taskId, p, stopAt, mode, script, terms);
    env.Invoke(SaveScriptData);
    assert WorldOf(store, env, ledger) == Emit(w0, [], [SaveScriptData]);
    if stopAt == StopTerms {
      var shown := map[TermsKey := terms];
      var returned := map[ScriptKey := Text(script), TermsKey := terms];
      store.UpdateTask(Completed(shown));
      ApplyCheckpoint(w0, [], [SaveScriptData], shown, returned);
      return Payload(returned);
    }
    store.UpdateTask(Progressing(20.0));
    EmitUpdate(w0, [], [SaveScriptData], Progressing(20.0));
    assert [] + [Progressing(20.0)] == [Progressing(20.0)];
    result := RunAudioStep(store, env, ledger, taskId, p, stopAt, mode, script, terms);
    ApplyPrepend(w0, [Progressing(20.0)], [SaveScriptData], FromAudio(env.replies, taskId, p, stopAt, mode, script, terms));
  }

  /** Step 3: the narration, then the `audio` checkpoint. */
  method RunAudioStep(store: StateStore, env: Services, ledger: Export.Ledger, taskId: string, p: Params,
      stopAt: StopAt, mode: ConcatMode, script: string, terms: Value)
    returns (result: RunResult)
    requires ledger.Valid()
    modifies store, env, ledger
    ensures ledger.Valid()
    ensures result == FromAudio(env.replies, taskId, p, stopAt, mode, script, terms).result
    ensures WorldOf(store, env, ledger) == Apply(old(WorldOf(store, env, ledger)), FromAudio(env.replies, taskId, p, stopAt, mode, script, terms))
  {
    ghost var w0 := WorldOf(store, env, ledger);
    ghost var st := AudioStage(env.replies, p);
    FromAudioCases(env.replies, taskId, p, stopAt, mode, script, terms);
    var audio := GenerateAudio(store, env, p);
    assert WorldOf(store, env, ledger) == Emit(w0, st.updates, st.calls);
    if audio.None? {
      store.UpdateTask(FailedUpdate);
      ApplyFailed(w0, st.updates, st.calls);
      return NoPayload;
    }
    store.UpdateTask(Progressing(30.0));
    EmitUpdate(w0, st.updates, st.calls, Progressing(30.0));
    ghost var us := st.updates + [Progressing(30.0)];
    if stopAt == StopAudio {
      var shown := map[AudioFileKey := Text(audio.value.file)];
      var returned := map[AudioFileKey := Text(audio.value.file), AudioDurationKey := Count(audio.value.duration)];
      store.UpdateTask(Completed(shown));
      ApplyCheckpoint(w0, us, st.calls, shown, returned);
      return Payload(returned);
    }
    result := RunSubtitleStep(store, env, ledger, taskId, p, stopAt, mode, script, terms, audio.value);
    ApplyPrepend(w0, us, st.calls, FromSubtitle(env.replies, taskId, p, stopAt, mode, script, terms, audio.value));
  }

  /** Step 4: the subtitles, then the `subtitle` checkpoint. */
  method RunSubtitleStep(store: StateStore, env: Services, ledger: Export.Ledger, taskId: string, p: Params,
      stopAt: StopAt, mode: ConcatMode, script: string, terms: Value, audio: Audio)
    returns (result: RunResult)
    requires ledger.Valid()
    modifies store, env, ledger
    ensures ledger.Valid()
    ensures result == FromSubtitle(env.replies, taskId, p, stopAt, mode, script, terms, audio).result
    ensures WorldOf(store, env, ledger) == Apply(old(WorldOf(store, env, ledger)), FromSubtitle(env.replies, taskId, p, stopAt, mode, script, terms, audio))
  {
    ghost var w0 := WorldOf(store, env, ledger);
    ghost var st := SubtitleStage(env.replies, p);
    FromSubtitleCases(env.replies, taskId, p, stopAt, mode, script, terms, audio);
    var subtitlePath := GenerateSubtitle(env, p);
    assert WorldOf(store, env, ledger) == Emit(w0, st.updates, st.calls) by {
      assert st.updates == [];
      assert w0.log + [] == w0.log;
    }
    if stopAt == StopSubtitle {
      var shown := map[SubtitlePathKey := Text(subtitlePath)];
      store.UpdateTask(Completed(shown));
      ApplyCheckpoint(w0, st.updates, st.calls, shown, shown);
      return Payload(shown);
    }
    store.UpdateTask(Progressing(40.0));
    EmitUpdate(w0, st.updates, st.calls, Progressing(40.0));
    result := RunMaterialsStep(store, env, ledger, taskId, p, stopAt, mode, script, terms, audio);
    ApplyPrepend(w0, st.updates + [Progressing(40.0)], st.calls, FromMaterials(env.replies, taskId, p, stopAt, mode, script, terms, audio));
  }

  /** Step 5: the footage, then the `materials` checkpoint. */
  method RunMaterialsStep(store: StateStore, env: Services, ledger: Export.Ledger, taskId: string, p: Params,
      stopAt: StopAt, mode: ConcatMode, script: string, terms: Value, audio: Audio)
    returns (result: RunResult)
    requires ledger.Valid()
    modifies store, env, ledger
    ensures ledger.Valid()
    ensures result == FromMaterials(env.replies, taskId, p, stopAt, mode, script, terms, audio).result
    ensures WorldOf(store, env, ledger) == Apply(old(WorldOf(store, env, ledger)), FromMaterials(env.replies, taskId, p, stopAt, mode, script, terms, audio))
  {
    ghost var w0 := WorldOf(store, env, ledger);
    ghost var st := MaterialsStage(env.replies, p, terms, audio.duration);
    FromMaterialsCases(env.replies, taskId, p, stopAt, mode, script, terms, audio);
    var materials := GetVideoMaterials(store, env, p, terms, audio.duration);
    assert WorldOf(store, env, ledger) == Emit(w0, st.updates, st.calls);
    if materials.None? {
      store.UpdateTask(FailedUpdate);
      ApplyFailed(w0, st.updates, st.calls);
      return NoPayload;
    }
    if stopAt == StopMaterials {
      var shown := map[MaterialsKey := Texts(materials.value)];
      store.UpdateTask(Completed(shown));
      ApplyCheckpoint(w0, st.updates, st.calls, shown, shown);
      return Payload(shown);
    }
    store.UpdateTask(Progressing(50.0));
    EmitUpdate(w0, st.updates, st.calls, Progressing(50.0));
    result := RunFinalStep(store, env, ledger, taskId, p, stopAt, mode, script, terms, audio, materials.value);
    ApplyPrepend(w0, st.updates + [Progressing(50.0)], st.calls, FromFinal(env.replies, taskId, p, mode, script, terms, audio, materials.value));
  }

  /** Step 6: the videos, their export rows and the completion. */
  method RunFinalStep(store: StateStore, env: Services, ledger: Export.Ledger, taskId: string, p: Params,
      stopAt: StopAt, mode: ConcatMode, script: string, terms: Value, audio: Audio, materials: seq<string>)
    returns (result: RunResult)
    requires ledger.Valid()
    modifies store, env, ledger
    ensures ledger.Valid()
    ensures result == FromFinal(env.replies, taskId, p, mode, script, terms, audio, materials).result
    ensures WorldOf(store, env, ledger) == Apply(old(WorldOf(store, env, ledger)), FromFinal(env.replies, taskId, p, mode, script, terms, audio, materials))
  {
    ghost var w0 := WorldOf(store, env, ledger);
    ghost var st := Finalize.FinalStage(env.replies, taskId, p, mode);
    FromFinalCases(env.replies, taskId, p, mode, script, terms, audio, materials);
    var out := Finalize.GenerateFinalVideos(store, env, taskId, p, mode);
    assert WorldOf(store, env, ledger) == Emit(w0, st.updates, st.calls);
    match out {
      case FinalRaised(e) =>
        ApplyNoRows(w0, Trace(st.updates, st.calls, [], Raised(e)));
        return Raised(e);
      case Videos(paths) =>
        if paths == [] {
          store.UpdateTask(FailedUpdate);
          ApplyFailed(w0, st.updates, st.calls);
          return NoPayload;
        }
        result := FinishRun(store, env, ledger, taskId, p, paths, script, Results(paths, script, terms, audio, materials));
        ApplyPrepend(w0, st.updates, st.calls, Finished(taskId, p, paths, script, Results(paths, script, terms, audio, materials)));
    }
  }

  /** The end of a run that rendered `paths`. */
  method FinishRun(store: StateStore, env: Services, ledger: Export.Ledger, taskId: string, p: Params,
      paths: seq<string>, script: string, fields: map<Field, Value>)
    returns (result: RunResult)
    requires ledger.Valid()
    modifies store, ledger
    ensures ledger.Valid()
    ensures result == Finished(taskId, p, paths, script, fields).result
    ensures WorldOf(store, env, ledger) == Apply(old(WorldOf(store, env, ledger)), Finished(taskId, p, paths, script, fields))
  {
    var rows := ExportRows(taskId, p, paths, script);
    ExportAll(ledger, rows);
    store.UpdateTask(Completed(fields));
    assert env.calls + [] == env.calls;
    return Payload(fields);
  }

  /** The loop of `start` that writes one export row per video. */
  method ExportAll(ledger: Export.Ledger, rows: seq<Export.ExportRow>)
    requires ledger.Valid()
    modifies ledger
    ensures ledger.Valid()
    ensures ledger.lines == old(ledger.lines) + Export.LinesFor(old(ledger.present), rows)
    ensures ledger.present == (old(ledger.present) || rows != [])
  {
    ghost var lines0 := ledger.lines;
    ghost var present0 := ledger.present;
    for i := 0 to |rows|
      invariant ledger.Valid()
      invariant ledger.lines == lines0 + Export.LinesFor(present0, rows[..i])
      invariant ledger.present == (present0 || i > 0)
    {
      ledger.SaveVideoExportData(rows[i]);
      Export.LinesForAppend(present0, rows[..i], rows[i]);
      assert rows[..i + 1] == rows[..i] + [rows[i]];
    }
    assert rows[..|rows|] == rows;
  }
}
