/**
  What a whole run of `start` promises, proved over `Task.Run` one step at a
  time: the last state update agrees with what `start` gives back, progress
  never goes down, a checkpoint returns exactly its own fields, only a few
  causes let an exception escape, and a completed run writes the expected
  trail of progress updates. A handful of particular runs follow.
 */
module TaskProps {
  import opened Wrappers
  import opened Text
  import opened Job
  import opened Stages
  import opened Task
  import Finalize

  // ---------------------------------------------------------------------
  // The properties of a trace

  /** The last update says how the run ended: COMPLETE at 100 when fields
      are returned (and no terminal state before it), FAILED when nothing is
      returned, and no terminal state at all when an exception escapes. */
  predicate Ends(t: Trace) {
    match t.result
    case Payload(_) =>
      t.updates != [] && t.updates[|t.updates| - 1].state == Some(Complete)
      && t.updates[|t.updates| - 1].progress == Some(100.0)
      && forall k :: 0 <= k < |t.updates| - 1 ==> !Terminal(t.updates[k])
    case NoPayload =>
      t.updates != [] && t.updates[|t.updates| - 1] == FailedUpdate
    case Raised(_) =>
      forall k :: 0 <= k < |t.updates| ==> !Terminal(t.updates[k])
  }

  /** Of any two updates that carry a progress, the later one is not lower. */
  predicate NeverDecreases(us: seq<Update>) {
    forall i, j :: 0 <= i < j < |us| && us[i].progress.Some? && us[j].progress.Some? ==>
      us[i].progress.value <= us[j].progress.value
  }

  /** Every progress in `us` lies between `lo` and `hi`. */
  predicate Within(us: seq<Update>, lo: real, hi: real) {
    forall k :: 0 <= k < |us| && us[k].progress.Some? ==> lo <= us[k].progress.value <= hi
  }

  /** The fields a run returns when it stops at `s`. */
  function ReturnedKeys(s: StopAt): set<Field> {
    match s
    case StopScript => {ScriptKey}
    case StopTerms => {ScriptKey, TermsKey}
    case StopAudio => {AudioFileKey, AudioDurationKey}
    case StopSubtitle => {SubtitlePathKey}
    case StopMaterials => {MaterialsKey}
    case StopNever => {VideosKey, ScriptKey, TermsKey, AudioDurationKey, MaterialsKey}
  }

  /** The only ways an exception escapes `start`: an unknown concat mode or
      search terms of an unexpected shape (ValueError), and the YouTube
      upload, which fails with a TypeError when attempted and with an
      UnboundLocalError when no video was made. */
  predicate RaisedFor(p: Params, e: Exc) {
    (e == ValueError && (ParseConcatMode(p.concatMode).None? || (p.terms.TermsOther? && p.terms.truthy)))
    || (e == TypeError && p.uploadToYoutube && p.videoCount > 0)
    || (e == UnboundLocalError && p.uploadToYoutube && p.videoCount <= 0)
  }

  /** The progress-only updates of the rendering loop. */
  function LoopTrail(p: Params): seq<Update> {
    var n: nat := if p.videoCount > 0 then p.videoCount else 0;
    Finalize.LoopUpdates(n, n)
  }

  /** Everything proved about a trace `t` that runs with `stopAt`, whose
      progress starts at `lo` or above, and that on full success writes
      `trail`, the loop's updates, then COMPLETE. */
  predicate Sound(t: Trace, p: Params, stopAt: StopAt, lo: real, trail: seq<Update>) {
    Ends(t)
    && NeverDecreases(t.updates)
    && Within(t.updates, lo, 100.0)
    && (t.result.Payload? ==> t.result.fields.Keys == ReturnedKeys(stopAt))
    && (t.result.Raised? ==> RaisedFor(p, t.result.exc))
    && (stopAt == StopNever && t.result.Payload? ==> t.updates == trail + LoopTrail(p) + [Completed(t.result.fields)])
    && (t.rows != [] <==> stopAt == StopNever && t.result.Payload?)
  }

  // ---------------------------------------------------------------------
  // How the properties compose

  /** Non-terminal progress updates `us`, rising and no higher than where
      `t` starts, keep `t` sound when put in front of it. */
  lemma PrependSound(us: seq<Update>, cs: seq<Call>, t: Trace, p: Params, stopAt: StopAt,
                     lo: real, lo2: real, trail: seq<Update>, trail2: seq<Update>)
    requires Sound(t, p, stopAt, lo, trail) && trail2 == us + trail
    requires forall k :: 0 <= k < |us| ==> !Terminal(us[k]) && us[k].progress.Some?
    requires NeverDecreases(us) && Within(us, lo2, lo) && lo2 <= lo <= 100.0
    ensures Sound(Prepend(us, cs, t), p, stopAt, lo2, trail2)
  {
    var all := us + t.updates;
    forall i, j | 0 <= i < j < |all| && all[i].progress.Some? && all[j].progress.Some?
      ensures all[i].progress.value <= all[j].progress.value
    {
      if j >= |us| {
        assert all[j] == t.updates[j - |us|];
        if i >= |us| {
          assert all[i] == t.updates[i - |us|];
        }
      }
    }
    forall k | 0 <= k < |all| && all[k].progress.Some?
      ensures lo2 <= all[k].progress.value <= 100.0
    {
      if k >= |us| {
        assert all[k] == t.updates[k - |us|];
      }
    }
    match t.result {
      case Payload(f) =>
        forall k | 0 <= k < |all| - 1
          ensures !Terminal(all[k])
        {
          if k >= |us| {
            assert all[k] == t.updates[k - |us|];
          }
        }
        if stopAt == StopNever {
          assert all == (us + trail) + LoopTrail(p) + [Completed(f)];
        }
      case NoPayload =>
      case Raised(_) =>
        forall k | 0 <= k < |all|
          ensures !Terminal(all[k])
        {
          if k >= |us| {
            assert all[k] == t.updates[k - |us|];
          }
        }
    }
  }

  /** A checkpoint returning exactly the fields of its `stop_at` value is sound. */
  lemma CheckpointSound(shown: map<Field, Value>, returned: map<Field, Value>, p: Params, stopAt: StopAt,
                        lo: real, trail: seq<Update>)
    requires stopAt != StopNever && returned.Keys == ReturnedKeys(stopAt) && lo <= 100.0
    ensures Sound(Checkpoint(shown, returned), p, stopAt, lo, trail)
  {
  }

  /** A stage failure after no update, or after FAILED, is sound. */
  lemma FailedSound(us: seq<Update>, cs: seq<Call>, p: Params, stopAt: StopAt, lo: real, trail: seq<Update>)
    requires us == [] || us == [FailedUpdate]
    ensures Sound(StageFailed(us, cs), p, stopAt, lo, trail)
  {
    var all := us + [FailedUpdate];
    assert forall k :: 0 <= k < |all| ==> all[k].progress.None? by {
      forall k | 0 <= k < |all| ensures all[k].progress.None? {
        if k < |us| { assert all[k] == us[k]; }
      }
    }
  }

  // ---------------------------------------------------------------------
  // The milestones

  /** The progress a run has reached when it enters step `k`: 5 at the
      start, 10 after the script, 20 after the terms, 30 after the audio,
      40 after the subtitles, 50 from the footage on. */
  function Level(k: int): real {
    if k == 0 then 5.0 else if k == 1 then 10.0 else if k == 2 then 20.0
    else if k == 3 then 30.0 else if k == 4 then 40.0 else 50.0
  }

  /** The milestones a run that makes its videos writes from step `k` on,
      before the rendering loop. */
  function Trail(k: int): seq<Update>
    decreases 6 - k
  {
    if k < 6 then [Progressing(Level(k))] + Trail(k + 1) else []
  }

  /** Step `k` writing its milestone in front of a sound rest keeps it sound. */
  lemma StepSound(us: seq<Update>, k: nat, cs: seq<Call>, t: Trace, p: Params, stopAt: StopAt)
    requires k < 6 && us == [Progressing(Level(k))]
    requires Sound(t, p, stopAt, Level(k + 1), Trail(k + 1)) == true
    ensures Sound(Prepend(us, cs, t), p, stopAt, Level(k), Trail(k))
  {
    PrependSound(us, cs, t, p, stopAt, Level(k + 1), Level(k), Trail(k + 1), Trail(k));
  }

  /** Calls with no update in front of a sound rest keep it sound. */
  lemma QuietSound(us: seq<Update>, cs: seq<Call>, t: Trace, p: Params, stopAt: StopAt, lo: real, trail: seq<Update>)
    requires us == [] && Sound(t, p, stopAt, lo, trail) == true
    ensures Sound(Prepend(us, cs, t), p, stopAt, lo, trail)
  {
    assert Prepend(us, cs, t).updates == t.updates;
  }

  /** The checkpoint of step `k`, after nothing or after the step's milestone. */
  lemma CheckpointAtSound(us: seq<Update>, cs: seq<Call>, shown: map<Field, Value>, returned: map<Field, Value>,
                          p: Params, stopAt: StopAt, k: nat)
    requires k < 6 && (us == [] || us == [Progressing(Level(k))])
    requires stopAt != StopNever && returned.Keys == ReturnedKeys(stopAt)
    ensures Sound(Prepend(us, cs, Checkpoint(shown, returned)), p, stopAt, Level(k), Trail(k))
  {
    if us == [] {
      CheckpointSound(shown, returned, p, stopAt, Level(k), Trail(k));
      QuietSound(us, cs, Checkpoint(shown, returned), p, stopAt, Level(k), Trail(k));
    } else {
      CheckpointSound(shown, returned, p, stopAt, Level(k), Trail(k + 1));
      PrependSound(us, cs, Checkpoint(shown, returned), p, stopAt, Level(k), Level(k), Trail(k + 1), Trail(k));
    }
  }

  // The fields each checkpoint returns are those of its `stop_at` value.

  lemma ScriptKeys(script: string)
    ensures map[ScriptKey := Text(script)].Keys == ReturnedKeys(StopScript)
  {
  }

  lemma TermsKeys(script: string, terms: Value)
    ensures map[ScriptKey := Text(script), TermsKey := terms].Keys == ReturnedKeys(StopTerms)
  {
  }

  lemma AudioKeys(a: Audio)
    ensures map[AudioFileKey := Text(a.file), AudioDurationKey := Count(a.duration)].Keys == ReturnedKeys(StopAudio)
  {
  }

  lemma SubtitleKeys(path: string)
    ensures map[SubtitlePathKey := Text(path)].Keys == ReturnedKeys(StopSubtitle)
  {
  }

  lemma MaterialsKeys(materials: seq<string>)
    ensures map[MaterialsKey := Texts(materials)].Keys == ReturnedKeys(StopMaterials)
  {
  }

  /** An exception raised before any update, for one of the known causes. */
  lemma RaisedSound(us: seq<Update>, cs: seq<Call>, e: Exc, p: Params, stopAt: StopAt, lo: real, trail: seq<Update>)
    requires us == [] && RaisedFor(p, e)
    ensures Sound(Trace(us, cs, [], Raised(e)), p, stopAt, lo, trail)
  {
  }

  /** An unknown concat mode raises right after progress 5. */
  lemma InvalidModeSound(p: Params, stopAt: StopAt)
    requires ParseConcatMode(p.concatMode).None?
    ensures Sound(Trace([Progressing(5.0)], [], [], Raised(ValueError)), p, stopAt, Level(0), Trail(0))
  {
  }

  /** The loop's updates are rising progress-only updates between 50 and
      100, and stay so when COMPLETE follows them. */
  lemma LoopTrailSound(p: Params, f: map<Field, Value>)
    ensures var us := LoopTrail(p);
            (forall k :: 0 <= k < |us| ==> !Terminal(us[k]) && us[k].progress.Some?)
            && NeverDecreases(us) && Within(us, 50.0, 100.0)
            && NeverDecreases(us + [Completed(f)]) && Within(us + [Completed(f)], 50.0, 100.0)
            && forall k :: 0 <= k < |us| ==> !Terminal((us + [Completed(f)])[k])
  {
    var n: nat := if p.videoCount > 0 then p.videoCount else 0;
    var us := LoopTrail(p);
    Finalize.LoopUpdatesProgress(n, n);
    forall k | 0 <= k < |us|
      ensures !Terminal(us[k]) && us[k].progress.Some? && 50.0 <= us[k].progress.value <= 100.0
    {
      Finalize.ProgressBounded(n, k + 1);
    }
    if n > 0 {
      Finalize.LoopEndsAtHundred(n);
    }
    var all := us + [Completed(f)];
    forall i, j | 0 <= i < j < |all| && all[i].progress.Some? && all[j].progress.Some?
      ensures all[i].progress.value <= all[j].progress.value
    {
      if j == |us| {
        assert all[j] == Completed(f);
      }
    }
  }

  /** The upload raising after the loop. */
  lemma LoopRaisedSound(p: Params, cs: seq<Call>, e: Exc)
    requires RaisedFor(p, e)
    ensures Sound(Trace(LoopTrail(p), cs, [], Raised(e)), p, StopNever, Level(6), Trail(6))
  {
    LoopTrailSound(p, map[]);
  }

  /** The loop's updates, then COMPLETE with fields returned for a full run
      and export rows written. */
  lemma CompletedAfterLoopSound(us: seq<Update>, cs: seq<Call>, rows: seq<Export.ExportRow>, f: map<Field, Value>,
                                p: Params)
    requires us == LoopTrail(p) && rows != [] && f.Keys == ReturnedKeys(StopNever)
    ensures Sound(Trace(us + [Completed(f)], cs, rows, Payload(f)), p, StopNever, Level(6), Trail(6))
  {
    LoopTrailSound(p, f);
    assert Trail(6) + us + [Completed(f)] == us + [Completed(f)];
  }

  /** A finished run is the loop's updates, then COMPLETE with every result
      of a full run, with one export row per video. */
  lemma FinishedShape(taskId: string, p: Params, paths: seq<string>, script: string, terms: Value, audio: Audio,
                      materials: seq<string>, cs: seq<Call>)
    requires paths != []
    ensures var fields := Results(paths, script, terms, audio, materials);
            var rows := ExportRows(taskId, p, paths, script);
            Prepend(LoopTrail(p), cs, Finished(taskId, p, paths, script, fields))
              == Trace(LoopTrail(p) + [Completed(fields)], cs, rows, Payload(fields))
            && rows != [] && fields.Keys == ReturnedKeys(StopNever)
  {
  }

  // ---------------------------------------------------------------------
  // Step by step, from the last step back to the first

  /** Step 6: the videos. */
  lemma {:induction false} FinalSound(r: Replies, taskId: string, p: Params, mode: ConcatMode, script: string,
                                      terms: Value, audio: Audio, materials: seq<string>)
    ensures Sound(FromFinal(r, taskId, p, mode, script, terms, audio, materials), p, StopNever, Level(6), Trail(6)) == true
  {
    var st := Finalize.FinalStage(r, taskId, p, mode);
    Finalize.FinalStageSpec(r, taskId, p, mode, st);
    FromFinalCases(r, taskId, p, mode, script, terms, audio, materials);
    assert st.updates == LoopTrail(p);
    match st.out {
      case FinalRaised(e) =>
        LoopRaisedSound(p, st.calls, e);
      case Videos(paths) =>
        if paths == [] {
          FailedSound(st.updates, st.calls, p, StopNever, Level(6), Trail(6));
        } else {
          FinishedShape(taskId, p, paths, script, terms, audio, materials, st.calls);
          CompletedAfterLoopSound(st.updates, st.calls, ExportRows(taskId, p, paths, script),
                                  Results(paths, script, terms, audio, materials), p);
        }
    }
  }

  /** Step 5: the footage and the `materials` checkpoint. */
  lemma {:induction false} MaterialsSound(r: Replies, taskId: string, p: Params, stopAt: StopAt, mode: ConcatMode,
                                          script: string, terms: Value, audio: Audio)
    requires stopAt == StopMaterials || stopAt == StopNever
    ensures Sound(FromMaterials(r, taskId, p, stopAt, mode, script, terms, audio), p, stopAt, Level(5), Trail(5)) == true
  {
    var st := MaterialsStage(r, p, terms, audio.duration);
    MaterialsStageSpec(r, p, terms, audio.duration, st);
    FromMaterialsCases(r, taskId, p, stopAt, mode, script, terms, audio);
    if st.out.None? {
      FailedSound(st.updates, st.calls, p, stopAt, Level(5), Trail(5));
    } else if stopAt == StopMaterials {
      var shown := map[MaterialsKey := Texts(st.out.value)];
      MaterialsKeys(st.out.value);
      CheckpointAtSound(st.updates, st.calls, shown, shown, p, stopAt, 5);
    } else {
      FinalSound(r, taskId, p, mode, script, terms, audio, st.out.value);
      StepSound(st.updates + [Progressing(50.0)], 5, st.calls, FromFinal(r, taskId, p, mode, script, terms, audio, st.out.value),
                p, stopAt);
    }
  }

  /** Step 4: the subtitles and the `subtitle` checkpoint. */
  lemma {:induction false} SubtitleSound(r: Replies, taskId: string, p: Params, stopAt: StopAt, mode: ConcatMode,
                                         script: string, terms: Value, audio: Audio)
    requires stopAt == StopSubtitle || stopAt == StopMaterials || stopAt == StopNever
    ensures Sound(FromSubtitle(r, taskId, p, stopAt, mode, script, terms, audio), p, stopAt, Level(4), Trail(4)) == true
  {
    var st := SubtitleStage(r, p);
    SubtitleStageSpec(r, p, st);
    FromSubtitleCases(r, taskId, p, stopAt, mode, script, terms, audio);
    if stopAt == StopSubtitle {
      var shown := map[SubtitlePathKey := Text(st.out)];
      SubtitleKeys(st.out);
      CheckpointAtSound(st.updates, st.calls, shown, shown, p, stopAt, 4);
    } else {
      MaterialsSound(r, taskId, p, stopAt, mode, script, terms, audio);
      StepSound(st.updates + [Progressing(40.0)], 4, st.calls, FromMaterials(r, taskId, p, stopAt, mode, script, terms, audio),
                p, stopAt);
    }
  }

  /** Step 3: the narration and the `audio` checkpoint. */
  lemma {:induction false} AudioSound(r: Replies, taskId: string, p: Params, stopAt: StopAt, mode: ConcatMode,
                                      script: string, terms: Value)
    requires stopAt != StopScript && stopAt != StopTerms
    ensures Sound(FromAudio(r, taskId, p, stopAt, mode, script, terms), p, stopAt, Level(3), Trail(3)) == true
  {
    var st := AudioStage(r, p);
    AudioStageSpec(r, p, st);
    FromAudioCases(r, taskId, p, stopAt, mode, script, terms);
    if st.out.None? {
      FailedSound(st.updates, st.calls, p, stopAt, Level(3), Trail(3));
    } else if stopAt == StopAudio {
      var a := st.out.value;
      var shown := map[AudioFileKey := Text(a.file)];
      var returned := map[AudioFileKey := Text(a.file), AudioDurationKey := Count(a.duration)];
      AudioKeys(a);
      CheckpointAtSound(st.updates + [Progressing(30.0)], st.calls, shown, returned, p, stopAt, 3);
    } else {
      SubtitleSound(r, taskId, p, stopAt, mode, script, terms, st.out.value);
      StepSound(st.updates + [Progressing(30.0)], 3, st.calls,
                FromSubtitle(r, taskId, p, stopAt, mode, script, terms, st.out.value), p, stopAt);
    }
  }

  /** `script.json` and the `terms` checkpoint. */
  lemma {:induction false} SaveSound(r: Replies, taskId: string, p: Params, stopAt: StopAt, mode: ConcatMode,
                                     script: string, terms: Value)
    requires stopAt != StopScript
    ensures Sound(FromSave(r, taskId, p, stopAt, mode, script, terms), p, stopAt, Level(2), Trail(2)) == true
  {
    FromSaveCases(r, taskId, p, stopAt, mode, script, terms);
    if stopAt == StopTerms {
      var shown := map[TermsKey := terms];
      var returned := map[ScriptKey := Text(script), TermsKey := terms];
      TermsKeys(script, terms);
      CheckpointAtSound([], [SaveScriptData], shown, returned, p, stopAt, 2);
    } else {
      AudioSound(r, taskId, p, stopAt, mode, script, terms);
      StepSound([Progressing(20.0)], 2, [SaveScriptData], FromAudio(r, taskId, p, stopAt, mode, script, terms), p, stopAt);
    }
  }

  /** The `script` checkpoint and step 2: the terms. */
  lemma {:induction false} TermsSound(r: Replies, taskId: string, p: Params, stopAt: StopAt, mode: ConcatMode,
                                      script: string)
    ensures Sound(FromTerms(r, taskId, p, stopAt, mode, script), p, stopAt, Level(2), Trail(2)) == true
  {
    var st := TermsStage(r, p);
    TermsStageSpec(r, p, st);
    FromTermsCases(r, taskId, p, stopAt, mode, script);
    if stopAt == StopScript {
      var shown := map[ScriptKey := Text(script)];
      ScriptKeys(script);
      CheckpointSound(shown, shown, p, stopAt, Level(2), Trail(2));
    } else if p.source == LocalSource {
      SaveSound(r, taskId, p, stopAt, mode, script, Text([]));
    } else {
      match st.out {
        case TermsRaised =>
          RaisedSound(st.updates, st.calls, ValueError, p, stopAt, Level(2), Trail(2));
        case TermsNone =>
          FailedSound(st.updates, st.calls, p, stopAt, Level(2), Trail(2));
        case TermsOk(ts) =>
          SaveSound(r, taskId, p, stopAt, mode, script, Texts(ts));
          QuietSound(st.updates, st.calls, FromSave(r, taskId, p, stopAt, mode, script, Texts(ts)),
                     p, stopAt, Level(2), Trail(2));
      }
    }
  }

  /** Step 1: the script. */
  lemma {:induction false} ScriptSound(r: Replies, taskId: string, p: Params, stopAt: StopAt, mode: ConcatMode)
    ensures Sound(FromScript(r, taskId, p, stopAt, mode), p, stopAt, Level(1), Trail(1)) == true
  {
    var st := ScriptStage(r, p);
    ScriptStageSpec(r, p, st);
    FromScriptCases(r, taskId, p, stopAt, mode);
    if st.out.None? || Contains(st.out.value, ErrorMarker) {
      FailedSound(st.updates, st.calls, p, stopAt, Level(1), Trail(1));
    } else {
      TermsSound(r, taskId, p, stopAt, mode, st.out.value);
      StepSound(st.updates + [Progressing(10.0)], 1, st.calls, FromTerms(r, taskId, p, stopAt, mode, st.out.value),
                p, stopAt);
    }
  }

  /** The whole run. */
  lemma {:induction false} RunSound(r: Replies, taskId: string, p: Params, stopAt: string)
    ensures Sound(Run(r, taskId, p, stopAt), p, ParseStopAt(stopAt), Level(0), Trail(0)) == true
  {
    RunCases(r, taskId, p, stopAt);
    var s := ParseStopAt(stopAt);
    if ParseConcatMode(p.concatMode).None? {
      InvalidModeSound(p, s);
    } else {
      var mode := ParseConcatMode(p.concatMode).value;
      ScriptSound(r, taskId, p, s, mode);
      StepSound([Progressing(5.0)], 0, [], FromScript(r, taskId, p, s, mode), p, s);
    }
  }

  /** Every run first marks the job as processing at 5. */
  lemma RunStartsProcessing(r: Replies, taskId: string, p: Params, stopAt: string)
    ensures var t := Run(r, taskId, p, stopAt);
            t.updates != [] && t.updates[0] == Progressing(5.0)
  {
    RunCases(r, taskId, p, stopAt);
  }

  /** What `Ends` says about the last update, both ways round. */
  lemma EndsMeans(t: Trace)
    requires Ends(t) && t.updates != []
    ensures t.result.Payload? <==> t.updates[|t.updates| - 1].state == Some(Complete)
    ensures t.result.NoPayload? <==> t.updates[|t.updates| - 1] == FailedUpdate
  {
  }

  // ---------------------------------------------------------------------
  // What every run promises

  /** A run first marks the job as processing at 5; it returns fields exactly
      when its last update is COMPLETE (at 100, and the only terminal update),
      returns nothing exactly when its last update is FAILED, and leaves the
      job in no terminal state when it raises. */
  lemma RunOutcomeMatchesLastUpdate(r: Replies, taskId: string, p: Params, stopAt: string)
    ensures var t := Run(r, taskId, p, stopAt);
            t.updates != [] && t.updates[0] == Progressing(5.0)
            && (t.result.Payload? <==> t.updates[|t.updates| - 1].state == Some(Complete))
            && (t.result.NoPayload? <==> t.updates[|t.updates| - 1] == FailedUpdate)
            && (t.result.Payload? ==>
                  t.updates[|t.updates| - 1].progress == Some(100.0)
                  && forall k :: 0 <= k < |t.updates| - 1 ==> !Terminal(t.updates[k]))
            && (t.result.Raised? ==> forall k :: 0 <= k < |t.updates| ==> !Terminal(t.updates[k]))
  {
    RunSound(r, taskId, p, stopAt);
    RunStartsProcessing(r, taskId, p, stopAt);
    EndsMeans(Run(r, taskId, p, stopAt));
  }

  /** The job's progress never goes down during a run and stays between 5 and 100. */
  lemma RunProgressNeverDecreases(r: Replies, taskId: string, p: Params, stopAt: string)
    ensures var us := Run(r, taskId, p, stopAt).updates;
            NeverDecreases(us) && Within(us, 5.0, 100.0)
  {
    RunSound(r, taskId, p, stopAt);
  }

  /** A run that returns fields returns exactly those of its checkpoint:
      for `stop_at` "script" the script, for "terms" the script and terms,
      for "audio" the audio file and duration, for "subtitle" the subtitle
      path, for "materials" the materials, and for anything else the
      videos, script, terms, audio duration and materials. */
  lemma RunCheckpointKeys(r: Replies, taskId: string, p: Params, stopAt: string)
    ensures var t := Run(r, taskId, p, stopAt);
            t.result.Payload? ==> t.result.fields.Keys == ReturnedKeys(ParseStopAt(stopAt))
  {
    RunSound(r, taskId, p, stopAt);
  }

  /** A run that makes its videos writes progress 5, 10, 20, 30, 40 and 50,
      then the loop's updates, then COMPLETE with its results; export rows
      are written by exactly such runs, one per returned video in order. */
  lemma CompletedRunUpdates(r: Replies, taskId: string, p: Params, stopAt: string)
    requires ParseStopAt(stopAt) == StopNever
    ensures var t := Run(r, taskId, p, stopAt);
            (t.result.Payload? ==>
               t.updates == [Progressing(5.0), Progressing(10.0), Progressing(20.0), Progressing(30.0),
                             Progressing(40.0), Progressing(50.0)] + LoopTrail(p) + [Completed(t.result.fields)])
            && (t.rows != [] <==> t.result.Payload?)
            && (t.result.Payload? ==>
                  VideosKey in t.result.fields && ScriptKey in t.result.fields
                  && t.result.fields[VideosKey].Texts? && t.result.fields[ScriptKey].Text?
                  && t.rows == ExportRows(taskId, p, t.result.fields[VideosKey].items, t.result.fields[ScriptKey].s))
  {
    RunSound(r, taskId, p, stopAt);
    RunRows(r, taskId, p, stopAt);
    assert Trail(0) == [Progressing(5.0), Progressing(10.0), Progressing(20.0), Progressing(30.0),
                        Progressing(40.0), Progressing(50.0)];
  }

  /** An exception escapes a run only for a bad concat mode, search terms of
      an unexpected shape, or the YouTube upload. */
  lemma RunRaisedCauses(r: Replies, taskId: string, p: Params, stopAt: string)
    ensures var t := Run(r, taskId, p, stopAt);
            t.result.Raised? ==> RaisedFor(p, t.result.exc)
  {
    RunSound(r, taskId, p, stopAt);
  }

  // ---------------------------------------------------------------------
  // The terms, once fixed

  /** Nothing in `t` asks the language model for terms, and every update or
      returned field that shows the terms shows `terms`. */
  predicate TermsFixed(t: Trace, terms: Value) {
    (forall c :: c in t.calls ==> !c.GenerateTermsLlm?)
    && (forall u :: u in t.updates && TermsKey in u.fields ==> u.fields[TermsKey] == terms)
    && (t.result.Payload? && TermsKey in t.result.fields ==> t.result.fields[TermsKey] == terms)
  }

  /** Updates without fields and calls that do not ask for terms, put in
      front of a trace that keeps the terms fixed, keep them fixed. */
  lemma PrependFixed(us: seq<Update>, cs: seq<Call>, t: Trace, terms: Value)
    requires forall u :: u in us ==> u.fields == map[]
    requires forall c :: c in cs ==> !c.GenerateTermsLlm?
    requires TermsFixed(t, terms) == true
    ensures TermsFixed(Prepend(us, cs, t), terms) == true
  {
  }

  /** A checkpoint that shows and returns the terms only as `terms`. */
  lemma CheckpointFixed(us: seq<Update>, cs: seq<Call>, shown: map<Field, Value>, returned: map<Field, Value>,
                        terms: Value)
    requires forall u :: u in us ==> u.fields == map[]
    requires forall c :: c in cs ==> !c.GenerateTermsLlm?
    requires TermsKey in shown ==> shown[TermsKey] == terms
    requires TermsKey in returned ==> returned[TermsKey] == terms
    ensures TermsFixed(Prepend(us, cs, Checkpoint(shown, returned)), terms) == true
  {
    PrependFixed(us, cs, Checkpoint(shown, returned), terms);
  }

  /** A stage failure keeps the terms fixed. */
  lemma FailedFixed(us: seq<Update>, cs: seq<Call>, terms: Value)
    requires forall u :: u in us ==> u.fields == map[]
    requires forall c :: c in cs ==> !c.GenerateTermsLlm?
    ensures TermsFixed(StageFailed(us, cs), terms) == true
  {
    assert forall u :: u in us + [FailedUpdate] ==> u.fields == map[];
  }

  /** The final stage writes only progress and calls only the renderer and
      the cleanup. */
  lemma FinalStageQuiet(r: Replies, taskId: string, p: Params, mode: ConcatMode)
    ensures var st := Finalize.FinalStage(r, taskId, p, mode);
            (forall u :: u in st.updates ==> u.fields == map[]) && (forall c :: c in st.calls ==> !c.GenerateTermsLlm?)
  {
    Finalize.FinalStageSpec(r, taskId, p, mode, Finalize.FinalStage(r, taskId, p, mode));
  }

  /** Step 6 shows and returns the terms it is given. */
  lemma {:induction false} FinalFixed(r: Replies, taskId: string, p: Params, mode: ConcatMode, script: string,
                                      terms: Value, audio: Audio, materials: seq<string>)
    ensures TermsFixed(FromFinal(r, taskId, p, mode, script, terms, audio, materials), terms) == true
  {
    var st := Finalize.FinalStage(r, taskId, p, mode);
    FinalStageQuiet(r, taskId, p, mode);
    FromFinalCases(r, taskId, p, mode, script, terms, audio, materials);
    match st.out {
      case FinalRaised(e) =>
      case Videos(paths) =>
        if paths == [] {
          FailedFixed(st.updates, st.calls, terms);
        } else {
          var fields := Results(paths, script, terms, audio, materials);
          PrependFixed(st.updates, st.calls, Finished(taskId, p, paths, script, fields), terms);
        }
    }
  }

  /** Step 5 on. */
  lemma {:induction false} MaterialsFixed(r: Replies, taskId: string, p: Params, stopAt: StopAt, mode: ConcatMode,
                                          script: string, terms: Value, audio: Audio)
    ensures TermsFixed(FromMaterials(r, taskId, p, stopAt, mode, script, terms, audio), terms) == true
  {
    var st := MaterialsStage(r, p, terms, audio.duration);
    MaterialsStageSpec(r, p, terms, audio.duration, st);
    FromMaterialsCases(r, taskId, p, stopAt, mode, script, terms, audio);
    if st.out.None? {
      FailedFixed(st.updates, st.calls, terms);
    } else if stopAt == StopMaterials {
      var shown := map[MaterialsKey := Texts(st.out.value)];
      CheckpointFixed(st.updates, st.calls, shown, shown, terms);
    } else {
      FinalFixed(r, taskId, p, mode, script, terms, audio, st.out.value);
      PrependFixed(st.updates + [Progressing(50.0)], st.calls,
                   FromFinal(r, taskId, p, mode, script, terms, audio, st.out.value), terms);
    }
  }

  /** Step 4 on. */
  lemma {:induction false} SubtitleFixed(r: Replies, taskId: string, p: Params, stopAt: StopAt, mode: ConcatMode,
                                         script: string, terms: Value, audio: Audio)
    ensures TermsFixed(FromSubtitle(r, taskId, p, stopAt, mode, script, terms, audio), terms) == true
  {
    var st := SubtitleStage(r, p);
    SubtitleStageSpec(r, p, st);
    FromSubtitleCases(r, taskId, p, stopAt, mode, script, terms, audio);
    if stopAt == StopSubtitle {
      var shown := map[SubtitlePathKey := Text(st.out)];
      CheckpointFixed(st.updates, st.calls, shown, shown, terms);
    } else {
      MaterialsFixed(r, taskId, p, stopAt, mode, script, terms, audio);
      PrependFixed(st.updates + [Progressing(40.0)], st.calls,
                   FromMaterials(r, taskId, p, stopAt, mode, script, terms, audio), terms);
    }
  }

  /** Step 3 on. */
  lemma {:induction false} AudioFixed(r: Replies, taskId: string, p: Params, stopAt: StopAt, mode: ConcatMode,
                                      script: string, terms: Value)
    ensures TermsFixed(FromAudio(r, taskId, p, stopAt, mode, script, terms), terms) == true
  {
    var st := AudioStage(r, p);
    AudioStageSpec(r, p, st);
    FromAudioCases(r, taskId, p, stopAt, mode, script, terms);
    if st.out.None? {
      FailedFixed(st.updates, st.calls, terms);
    } else if stopAt == StopAudio {
      var a := st.out.value;
      CheckpointFixed(st.updates + [Progressing(30.0)], st.calls, map[AudioFileKey := Text(a.file)],
                      map[AudioFileKey := Text(a.file), AudioDurationKey := Count(a.duration)], terms);
    } else {
      SubtitleFixed(r, taskId, p, stopAt, mode, script, terms, st.out.value);
      PrependFixed(st.updates + [Progressing(30.0)], st.calls,
                   FromSubtitle(r, taskId, p, stopAt, mode, script, terms, st.out.value), terms);
    }
  }

  /** From the write of `script.json` on, the terms are never asked for
      again, and every update and returned field that shows them shows the
      terms that were saved. */
  lemma {:induction false} SaveFixed(r: Replies, taskId: string, p: Params, stopAt: StopAt, mode: ConcatMode,
                                     script: string, terms: Value)
    ensures TermsFixed(FromSave(r, taskId, p, stopAt, mode, script, terms), terms) == true
  {
    FromSaveCases(r, taskId, p, stopAt, mode, script, terms);
    if stopAt == StopTerms {
      CheckpointFixed([], [SaveScriptData], map[TermsKey := terms], map[ScriptKey := Text(script), TermsKey := terms],
                      terms);
    } else {
      AudioFixed(r, taskId, p, stopAt, mode, script, terms);
      PrependFixed([Progressing(20.0)], [SaveScriptData], FromAudio(r, taskId, p, stopAt, mode, script, terms), terms);
    }
  }

  /** With local footage, the `script` checkpoint and step 2 on keep the
      terms fixed at "". */
  lemma {:induction false} LocalTermsFixed(r: Replies, taskId: string, p: Params, stopAt: StopAt, mode: ConcatMode,
                                           script: string)
    requires p.source == LocalSource
    ensures TermsFixed(FromTerms(r, taskId, p, stopAt, mode, script), Text([])) == true
  {
    FromTermsCases(r, taskId, p, stopAt, mode, script);
    if stopAt == StopScript {
      var shown := map[ScriptKey := Text(script)];
      CheckpointFixed([], [], shown, shown, Text([]));
    } else {
      SaveFixed(r, taskId, p, stopAt, mode, script, Text([]));
    }
  }

  /** With local footage, step 1 on keeps the terms fixed at "". */
  lemma {:induction false} LocalScriptFixed(r: Replies, taskId: string, p: Params, stopAt: StopAt, mode: ConcatMode)
    requires p.source == LocalSource
    ensures TermsFixed(FromScript(r, taskId, p, stopAt, mode), Text([])) == true
  {
    var st := ScriptStage(r, p);
    ScriptStageSpec(r, p, st);
    FromScriptCases(r, taskId, p, stopAt, mode);
    if st.out.None? || Contains(st.out.value, ErrorMarker) {
      FailedFixed(st.updates, st.calls, Text([]));
    } else {
      LocalTermsFixed(r, taskId, p, stopAt, mode, st.out.value);
      PrependFixed(st.updates + [Progressing(10.0)], st.calls, FromTerms(r, taskId, p, stopAt, mode, st.out.value),
                   Text([]));
    }
  }

  // ---------------------------------------------------------------------
  // The export rows

  /** A run that returns its videos wrote one export row per returned video,
      in order, built from the returned script; any other run wrote none. */
  predicate RowsMatch(t: Trace, taskId: string, p: Params) {
    if t.result.Payload? && VideosKey in t.result.fields then
      ScriptKey in t.result.fields && t.result.fields[VideosKey].Texts? && t.result.fields[ScriptKey].Text?
      && t.rows == ExportRows(taskId, p, t.result.fields[VideosKey].items, t.result.fields[ScriptKey].s)
    else t.rows == []
  }

  /** Step 6: the rows are those of the rendered paths. */
  lemma {:induction false} FinalRows(r: Replies, taskId: string, p: Params, mode: ConcatMode, script: string,
                                     terms: Value, audio: Audio, materials: seq<string>)
    ensures RowsMatch(FromFinal(r, taskId, p, mode, script, terms, audio, materials), taskId, p) == true
  {
    FromFinalCases(r, taskId, p, mode, script, terms, audio, materials);
  }

  /** Step 5 on. */
  lemma {:induction false} MaterialsRows(r: Replies, taskId: string, p: Params, stopAt: StopAt, mode: ConcatMode,
                                         script: string, terms: Value, audio: Audio)
    ensures RowsMatch(FromMaterials(r, taskId, p, stopAt, mode, script, terms, audio), taskId, p) == true
  {
    var st := MaterialsStage(r, p, terms, audio.duration);
    FromMaterialsCases(r, taskId, p, stopAt, mode, script, terms, audio);
    if st.out.Some? && stopAt != StopMaterials {
      FinalRows(r, taskId, p, mode, script, terms, audio, st.out.value);
    }
  }

  /** Step 4 on. */
  lemma {:induction false} SubtitleRows(r: Replies, taskId: string, p: Params, stopAt: StopAt, mode: ConcatMode,
                                        script: string, terms: Value, audio: Audio)
    ensures RowsMatch(FromSubtitle(r, taskId, p, stopAt, mode, script, terms, audio), taskId, p) == true
  {
    FromSubtitleCases(r, taskId, p, stopAt, mode, script, terms, audio);
    if stopAt != StopSubtitle {
      MaterialsRows(r, taskId, p, stopAt, mode, script, terms, audio);
    }
  }

  /** Step 3 on. */
  lemma {:induction false} AudioRows(r: Replies, taskId: string, p: Params, stopAt: StopAt, mode: ConcatMode,
                                     script: string, terms: Value)
    ensures RowsMatch(FromAudio(r, taskId, p, stopAt, mode, script, terms), taskId, p) == true
  {
    var st := AudioStage(r, p);
    FromAudioCases(r, taskId, p, stopAt, mode, script, terms);
    if st.out.Some? && stopAt != StopAudio {
      SubtitleRows(r, taskId, p, stopAt, mode, script, terms, st.out.value);
    }
  }

  /** From the write of `script.json` on. */
  lemma {:induction false} SaveRows(r: Replies, taskId: string, p: Params, stopAt: StopAt, mode: ConcatMode,
                                    script: string, terms: Value)
    ensures RowsMatch(FromSave(r, taskId, p, stopAt, mode, script, terms), taskId, p) == true
  {
    FromSaveCases(r, taskId, p, stopAt, mode, script, terms);
    if stopAt != StopTerms {
      AudioRows(r, taskId, p, stopAt, mode, script, terms);
    }
  }

  /** Step 2 on. */
  lemma {:induction false} TermsRows(r: Replies, taskId: string, p: Params, stopAt: StopAt, mode: ConcatMode,
                                     script: string)
    ensures RowsMatch(FromTerms(r, taskId, p, stopAt, mode, script), taskId, p) == true
  {
    var st := TermsStage(r, p);
    FromTermsCases(r, taskId, p, stopAt, mode, script);
    if stopAt != StopScript {
      if p.source == LocalSource {
        SaveRows(r, taskId, p, stopAt, mode, script, Text([]));
      } else if st.out.TermsOk? {
        SaveRows(r, taskId, p, stopAt, mode, script, Texts(st.out.terms));
      }
    }
  }

  /** Step 1 on. */
  lemma {:induction false} ScriptRows(r: Replies, taskId: string, p: Params, stopAt: StopAt, mode: ConcatMode)
    ensures RowsMatch(FromScript(r, taskId, p, stopAt, mode), taskId, p) == true
  {
    var st := ScriptStage(r, p);
    FromScriptCases(r, taskId, p, stopAt, mode);
    if st.out.Some? && !Contains(st.out.value, ErrorMarker) {
      TermsRows(r, taskId, p, stopAt, mode, st.out.value);
    }
  }

  /** Every run of `start` that returns its videos appends exactly one export
      row per returned video, in the returned order, each built from the task
      id, the request and the returned script; a run that returns no videos
      appends none. */
  lemma RunRows(r: Replies, taskId: string, p: Params, stopAt: string)
    ensures RowsMatch(Run(r, taskId, p, stopAt), taskId, p) == true
  {
    RunCases(r, taskId, p, stopAt);
    if ParseConcatMode(p.concatMode).Some? {
      ScriptRows(r, taskId, p, ParseStopAt(stopAt), ParseConcatMode(p.concatMode).value);
    }
  }

  // ---------------------------------------------------------------------
  // Particular runs

  /** The error marker counts wherever it occurs in the script. */
  lemma ErrorMarkerAnywhere(s: string)
    ensures Contains(s, ErrorMarker) <==> exists i :: OccursAt(s, ErrorMarker, i)
  {
    if Contains(s, ErrorMarker) {
      ContainsWitness(s, ErrorMarker);
    }
    if i :| OccursAt(s, ErrorMarker, i) {
      var j := i + |ErrorMarker|;
      assert s == s[..i] + ErrorMarker + s[j..];
      ContainsAnywhere(s[..i], ErrorMarker, s[j..]);
    }
  }

  /** Without a usable script the run stops right after the script stage:
      progress 5, the stage's own updates, FAILED, and no other call. */
  lemma ScriptFailureStops(r: Replies, taskId: string, p: Params, stopAt: string)
    requires ParseConcatMode(p.concatMode).Some?
    requires var out := ScriptStage(r, p).out; out.None? || Contains(out.value, ErrorMarker)
    ensures var st := ScriptStage(r, p);
            Run(r, taskId, p, stopAt) == Trace([Progressing(5.0)] + st.updates + [FailedUpdate], st.calls, [], NoPayload)
  {
    RunCases(r, taskId, p, stopAt);
    FromScriptCases(r, taskId, p, ParseStopAt(stopAt), ParseConcatMode(p.concatMode).value);
    var st := ScriptStage(r, p);
    assert [Progressing(5.0)] + (st.updates + [FailedUpdate]) == [Progressing(5.0)] + st.updates + [FailedUpdate];
  }

  /** With local footage, stopping at "terms" writes `script.json` and the
      checkpoint with empty terms. */
  lemma LocalTermsCheckpoint(r: Replies, taskId: string, p: Params, mode: ConcatMode, script: string)
    requires p.source == LocalSource
    ensures FromTerms(r, taskId, p, StopTerms, mode, script)
         == Trace([Completed(map[TermsKey := Text([])])], [SaveScriptData], [],
                  Payload(map[ScriptKey := Text(script), TermsKey := Text([])]))
  {
    FromTermsCases(r, taskId, p, StopTerms, mode, script);
    FromSaveCases(r, taskId, p, StopTerms, mode, script, Text([]));
    assert [SaveScriptData] + [] == [SaveScriptData];
  }

  /** With local footage the terms are never asked for: stopping at "terms"
      returns the script and empty terms after only the script's calls and
      the write of `script.json`. */
  lemma LocalSourceSkipsTerms(r: Replies, taskId: string, p: Params, stopAt: string)
    requires ParseConcatMode(p.concatMode).Some? && ParseStopAt(stopAt) == StopTerms
    requires var out := ScriptStage(r, p).out; out.Some? && !Contains(out.value, ErrorMarker)
    requires p.source == LocalSource
    ensures var st := ScriptStage(r, p);
            var t := Run(r, taskId, p, stopAt);
            t.result == Payload(map[ScriptKey := Text(st.out.value), TermsKey := Text([])])
            && t.calls == st.calls + [SaveScriptData]
            && t.updates == [Progressing(5.0), Progressing(10.0), Completed(map[TermsKey := Text([])])]
  {
    var mode := ParseConcatMode(p.concatMode).value;
    var st := ScriptStage(r, p);
    ScriptStageSpec(r, p, st);
    RunCases(r, taskId, p, stopAt);
    FromScriptCases(r, taskId, p, StopTerms, mode);
    LocalTermsCheckpoint(r, taskId, p, mode, st.out.value);
    assert st.updates == [];
    assert [Progressing(5.0)] + ((st.updates + [Progressing(10.0)]) + [Completed(map[TermsKey := Text([])])])
        == [Progressing(5.0), Progressing(10.0), Completed(map[TermsKey := Text([])])];
  }

  /** With local footage the language model is never asked for terms,
      whatever `stop_at` is, and every update and returned field that shows
      the terms shows "" (so does a finished run's COMPLETE update). */
  lemma LocalSourceNeverAsksForTerms(r: Replies, taskId: string, p: Params, stopAt: string)
    requires p.source == LocalSource
    ensures var t := Run(r, taskId, p, stopAt);
            (forall c :: c in t.calls ==> !c.GenerateTermsLlm?)
            && (forall u :: u in t.updates && TermsKey in u.fields ==> u.fields[TermsKey] == Text([]))
            && (t.result.Payload? && TermsKey in t.result.fields ==> t.result.fields[TermsKey] == Text([]))
  {
    RunCases(r, taskId, p, stopAt);
    if ParseConcatMode(p.concatMode).Some? {
      var mode := ParseConcatMode(p.concatMode).value;
      LocalScriptFixed(r, taskId, p, ParseStopAt(stopAt), mode);
      PrependFixed([Progressing(5.0)], [], FromScript(r, taskId, p, ParseStopAt(stopAt), mode), Text([]));
    }
  }

  /** Search terms of an unexpected shape raise a ValueError after progress
      10, and the job is never marked failed or complete. */
  lemma BadTermsRaise(r: Replies, taskId: string, p: Params, stopAt: string)
    requires ParseConcatMode(p.concatMode).Some? && ParseStopAt(stopAt) != StopScript
    requires var out := ScriptStage(r, p).out; out.Some? && !Contains(out.value, ErrorMarker)
    requires p.source != LocalSource && p.terms.TermsOther? && p.terms.truthy
    ensures var t := Run(r, taskId, p, stopAt);
            t.result == Raised(ValueError) && t.updates == [Progressing(5.0), Progressing(10.0)]
  {
    var mode := ParseConcatMode(p.concatMode).value;
    var s := ParseStopAt(stopAt);
    var st := ScriptStage(r, p);
    ScriptStageSpec(r, p, st);
    TermsStageSpec(r, p, TermsStage(r, p));
    RunCases(r, taskId, p, stopAt);
    FromScriptCases(r, taskId, p, s, mode);
    FromTermsCases(r, taskId, p, s, mode, st.out.value);
  }

  /** A run that gets as far as the footage downloads it once for every
      requested video: the budget is the narration length, rounded up,
      times the number of videos. */
  lemma DownloadBudget(r: Replies, taskId: string, p: Params, stopAt: string, ts: seq<string>, d: real)
    requires ParseConcatMode(p.concatMode).Some?
    requires ParseStopAt(stopAt) == StopMaterials || ParseStopAt(stopAt) == StopNever
    requires var out := ScriptStage(r, p).out; out.Some? && !Contains(out.value, ErrorMarker)
    requires p.source != LocalSource && TermsStage(r, p).out == TermsOk(ts) && r.speech == Some(d)
    ensures DownloadVideos(Texts(ts), Ceil(d) * p.videoCount) in Run(r, taskId, p, stopAt).calls
  {
    var mode := ParseConcatMode(p.concatMode).value;
    var s := ParseStopAt(stopAt);
    var script := ScriptStage(r, p).out.value;
    var audio := AudioStage(r, p).out;
    AudioStageSpec(r, p, AudioStage(r, p));
    assert audio == Some(Audio(JoinPath(r.taskDir, AudioName), Ceil(d)));
    var st := MaterialsStage(r, p, Texts(ts), Ceil(d));
    MaterialsStageSpec(r, p, Texts(ts), Ceil(d), st);
    FromMaterialsCases(r, taskId, p, s, mode, script, Texts(ts), audio.value);
    var tm := FromMaterials(r, taskId, p, s, mode, script, Texts(ts), audio.value);
    assert DownloadVideos(Texts(ts), Ceil(d) * p.videoCount) in tm.calls by {
      assert st.calls[0] == DownloadVideos(Texts(ts), Ceil(d) * p.videoCount);
      if st.out.Some? && s == StopNever {
        var tf := FromFinal(r, taskId, p, mode, script, Texts(ts), audio.value, st.out.value);
        assert tm.calls == st.calls + tf.calls;
      }
    }
    FromSubtitleCases(r, taskId, p, s, mode, script, Texts(ts), audio.value);
    FromAudioCases(r, taskId, p, s, mode, script, Texts(ts));
    FromSaveCases(r, taskId, p, s, mode, script, Texts(ts));
    FromTermsCases(r, taskId, p, s, mode, script);
    FromScriptCases(r, taskId, p, s, mode);
    RunCases(r, taskId, p, stopAt);
  }
}
