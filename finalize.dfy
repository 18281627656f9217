/**
  `generate_final_videos`: for each requested output, combine the
  materials, render the final video (optionally behind a hook clip) and
  advance the progress by half a share twice; then the optional upload and
  the cleanup of the task directory.

  Progress is exact rational arithmetic (`real`), not Python floats.
 */
module Finalize {
  import opened Wrappers
  import opened Text
  import opened Job
  import Cleanup

  /** The concat mode handed to every `combine_videos` call: the requested
      one for a single output, `random` for several. */
  function ConcatModeFor(videoCount: int, mode: ConcatMode): ConcatMode {
    if videoCount == 1 then mode else Random
  }

  /** `50 / video_count / 2`: half of one output's share of the second
      half of the progress bar. */
  function Step(count: nat): (r: real)
    requires count > 0
    ensures r > 0.0
  {
    50.0 / (count as real) / 2.0
  }

  /** `_progress` after `halves` increments, starting from 50. */
  function Accumulated(count: nat, halves: nat): real
    requires count > 0
  {
    if halves == 0 then 50.0 else Accumulated(count, halves - 1) + Step(count)
  }

  /** Each increment adds the same step. */
  lemma {:induction false} AccumulatedClosedForm(count: nat, halves: nat)
    requires count > 0
    ensures Accumulated(count, halves) == 50.0 + (halves as real) * Step(count)
  {
    if halves > 0 {
      AccumulatedClosedForm(count, halves - 1);
    }
  }

  /** After every output's two increments the progress is exactly 100. */
  lemma FullProgress(count: nat)
    requires count > 0
    ensures Accumulated(count, 2 * count) == 100.0
  {
    AccumulatedClosedForm(count, 2 * count);
    var c := count as real;
    assert (2.0 * c) * (50.0 / c / 2.0) == 50.0;
  }

  /** Progress strictly increases from one increment to any later one. */
  lemma {:induction false} ProgressStrictlyRises(count: nat, h1: nat, h2: nat)
    requires count > 0 && h1 < h2
    ensures Accumulated(count, h1) < Accumulated(count, h2)
  {
    if h1 < h2 - 1 {
      ProgressStrictlyRises(count, h1, h2 - 1);
    }
  }

  /** Progress stays between 50 and 100 throughout the loop. */
  lemma ProgressBounded(count: nat, halves: nat)
    requires count > 0 && halves <= 2 * count
    ensures 50.0 <= Accumulated(count, halves) <= 100.0
  {
    FullProgress(count);
    if halves > 0 {
      ProgressStrictlyRises(count, 0, halves);
    }
    if halves < 2 * count {
      ProgressStrictlyRises(count, halves, 2 * count);
    }
  }

  /** `f"{task_id}-{index}.mp4"` */
  function OutputName(taskId: string, index: nat): string {
    taskId + "-" + NatToString(index) + ".mp4"
  }

  /** The path recorded for output `index`: the rendered file in the final
      videos directory, or what `add_hook_video` returns for it. */
  function OutputPath(r: Replies, taskId: string, useHook: bool, index: nat): string {
    var rendered := JoinPath(r.finalDir, OutputName(taskId, index));
    if useHook then r.hook(rendered) else rendered
  }

  /** `final_video_paths` after `n` iterations. */
  function OutputPaths(r: Replies, taskId: string, useHook: bool, n: nat): seq<string> {
    if n == 0 then [] else OutputPaths(r, taskId, useHook, n - 1) + [OutputPath(r, taskId, useHook, n)]
  }

  /** Exactly one path per output, in index order. */
  lemma {:induction false} OutputPathsInOrder(r: Replies, taskId: string, useHook: bool, n: nat)
    ensures |OutputPaths(r, taskId, useHook, n)| == n
    ensures forall k :: 0 <= k < n ==> OutputPaths(r, taskId, useHook, n)[k] == OutputPath(r, taskId, useHook, k + 1)
  {
    if n > 0 {
      OutputPathsInOrder(r, taskId, useHook, n - 1);
    }
  }

  /** The two progress-only updates of iteration `index` (1-based). */
  function IterationUpdates(count: nat, index: nat): seq<Update>
    requires 1 <= index <= count
  {
    [ProgressOnly(Accumulated(count, 2 * index - 1)), ProgressOnly(Accumulated(count, 2 * index))]
  }

  /** The state updates of the first `n` iterations. */
  function LoopUpdates(count: nat, n: nat): seq<Update>
    requires n <= count
  {
    if n == 0 then [] else LoopUpdates(count, n - 1) + IterationUpdates(count, n)
  }

  /** The k-th update of the loop reports the progress after k + 1 steps. */
  lemma {:induction false} LoopUpdatesProgress(count: nat, n: nat)
    requires n <= count
    ensures |LoopUpdates(count, n)| == 2 * n
    ensures forall k :: 0 <= k < 2 * n ==> LoopUpdates(count, n)[k] == ProgressOnly(Accumulated(count, k + 1))
  {
    if n > 0 {
      LoopUpdatesProgress(count, n - 1);
    }
  }

  /** The collaborator calls of one iteration. */
  function IterationCalls(index: nat, mode: ConcatMode, useHook: bool): seq<Call> {
    [CombineVideos(index, mode), GenerateVideo(index)] + (if useHook then [AddHook(index)] else [])
  }

  /** The collaborator calls of the first `n` iterations. */
  function LoopCalls(n: nat, mode: ConcatMode, useHook: bool): seq<Call> {
    if n == 0 then [] else LoopCalls(n - 1, mode, useHook) + IterationCalls(n, mode, useHook)
  }

  /** The loop only combines, renders and adds hook clips (so never cleans
      up), combines only in the given mode, touches only outputs `1 .. n`,
      and adds hook clips only when asked. */
  lemma {:induction false} LoopCallsShape(n: nat, mode: ConcatMode, useHook: bool)
    ensures forall c :: c in LoopCalls(n, mode, useHook) ==> c.CombineVideos? || c.GenerateVideo? || c.AddHook?
    ensures forall c :: c in LoopCalls(n, mode, useHook) ==> c != CleanupTaskDir
    ensures forall c :: c in LoopCalls(n, mode, useHook) && c.CombineVideos? ==> c.mode == mode && 1 <= c.index <= n
    ensures forall c :: c in LoopCalls(n, mode, useHook) && c.GenerateVideo? ==> 1 <= c.index <= n
    ensures forall c :: c in LoopCalls(n, mode, useHook) && c.AddHook? ==> useHook
  {
    if n > 0 {
      LoopCallsShape(n - 1, mode, useHook);
    }
  }

  /** Every output is combined and rendered (at least once), and hooked when asked. */
  lemma {:induction false} EachOutputRendered(n: nat, mode: ConcatMode, useHook: bool, index: nat)
    requires 1 <= index <= n
    ensures CombineVideos(index, mode) in LoopCalls(n, mode, useHook)
    ensures GenerateVideo(index) in LoopCalls(n, mode, useHook)
    ensures useHook ==> AddHook(index) in LoopCalls(n, mode, useHook)
  {
    if index < n {
      EachOutputRendered(n - 1, mode, useHook, index);
    }
  }

  /** What the stage gives back: the paths, or an exception that escapes. */
  datatype FinalOut = Videos(paths: seq<string>) | FinalRaised(exc: Exc)

  /** The whole stage for parameters `p`, with `mode` the (already parsed)
      requested concat mode. */
  function FinalStage(r: Replies, taskId: string, p: Params, mode: ConcatMode): Stage<FinalOut>
  {
    var n: nat := if p.videoCount > 0 then p.videoCount else 0;
    var updates := LoopUpdates(n, n);
    var calls := LoopCalls(n, ConcatModeFor(p.videoCount, mode), p.useHook);
    if p.uploadToYoutube && n == 0 then Stage(FinalRaised(UnboundLocalError), updates, calls)
    else if p.uploadToYoutube && r.fileExists(OutputPath(r, taskId, p.useHook, n)) then
      Stage(FinalRaised(TypeError), updates, calls)
    else Stage(Videos(OutputPaths(r, taskId, p.useHook, n)), updates, calls + [CleanupTaskDir])
  }

  /** What the final stage promises about its outcome, its calls and its
      updates. */
  lemma FinalStageSpec(r: Replies, taskId: string, p: Params, mode: ConcatMode, st: Stage<FinalOut>)
    requires st == FinalStage(r, taskId, p, mode)
    // `final_video_path` is unbound when there was no iteration
    ensures st.out == FinalRaised(UnboundLocalError) <==> p.uploadToYoutube && p.videoCount <= 0
    // the upload call's unexpected `tags` argument raises whenever the upload is attempted
    ensures st.out == FinalRaised(TypeError) <==>
              p.uploadToYoutube && p.videoCount > 0 && r.fileExists(OutputPath(r, taskId, p.useHook, p.videoCount))
    // otherwise exactly one path per output, in index order
    ensures st.out.Videos? ==> |st.out.paths| == (if p.videoCount > 0 then p.videoCount else 0)
    ensures st.out.Videos? ==> forall k :: 0 <= k < |st.out.paths| ==>
              st.out.paths[k] == OutputPath(r, taskId, p.useHook, k + 1)
    // the task directory is cleaned exactly when the paths are returned, as the last call
    ensures CleanupTaskDir in st.calls <==> st.out.Videos?
    ensures st.out.Videos? ==> st.calls[|st.calls| - 1] == CleanupTaskDir
    // no other collaborator than the renderer and the cleanup is called
    ensures forall c :: c in st.calls ==> c.CombineVideos? || c.GenerateVideo? || c.AddHook? || c == CleanupTaskDir
    // only progress moves, two updates per output
    ensures |st.updates| == (if p.videoCount > 0 && st.out != FinalRaised(UnboundLocalError) then 2 * p.videoCount else 0)
    ensures forall u :: u in st.updates ==> u.state == None && u.progress.Some? && u.fields == map[]
  {
    var n: nat := if p.videoCount > 0 then p.videoCount else 0;
    LoopCallsShape(n, ConcatModeFor(p.videoCount, mode), p.useHook);
    LoopUpdatesProgress(n, n);
    OutputPathsInOrder(r, taskId, p.useHook, n);
  }

  /** With several outputs every combination is random, whatever was asked. */
  lemma SeveralOutputsCombineRandomly(r: Replies, taskId: string, p: Params, mode: ConcatMode)
    requires p.videoCount != 1
    ensures forall c :: c in FinalStage(r, taskId, p, mode).calls && c.CombineVideos? ==> c.mode == Random
  {
    LoopCallsShape(if p.videoCount > 0 then p.videoCount else 0, Random, p.useHook);
  }

  /** A single output is combined in the requested mode. */
  lemma SingleOutputKeepsMode(r: Replies, taskId: string, p: Params, mode: ConcatMode)
    requires p.videoCount == 1
    ensures CombineVideos(1, mode) in FinalStage(r, taskId, p, mode).calls
    ensures forall c :: c in FinalStage(r, taskId, p, mode).calls && c.CombineVideos? ==> c == CombineVideos(1, mode)
  {
    EachOutputRendered(1, mode, p.useHook, 1);
  }

  /** The loop's last update brings the progress to exactly 100, and each
      update is strictly higher than the one before. */
  lemma LoopEndsAtHundred(count: nat)
    requires count > 0
    ensures var us := LoopUpdates(count, count);
            us != [] && us[|us| - 1] == ProgressOnly(100.0) && ProgressRises(us)
  {
    FullProgress(count);
    LoopUpdatesProgress(count, count);
    var us := LoopUpdates(count, count);
    forall i, j | 0 <= i < j < |us|
      ensures us[i].progress.value < us[j].progress.value
    {
      ProgressStrictlyRises(count, i + 1, j + 1);
    }
  }

  /** Without hook clips, different outputs get different paths. */
  lemma DistinctOutputPaths(r: Replies, taskId: string, i: nat, j: nat)
    requires i != j
    ensures OutputPath(r, taskId, false, i) != OutputPath(r, taskId, false, j)
  {
    if OutputPath(r, taskId, false, i) == OutputPath(r, taskId, false, j) {
      var a := OutputName(taskId, i);
      var b := OutputName(taskId, j);
      JoinPathInjective(r.finalDir, a, b);
      OutputNameInjective(taskId, i, j);
    }
  }

  lemma OutputNameInjective(taskId: string, i: nat, j: nat)
    requires OutputName(taskId, i) == OutputName(taskId, j)
    ensures i == j
  {
    var head := taskId + "-";
    var tail := ".mp4";
    var a := NatToString(i);
    var b := NatToString(j);
    assert OutputName(taskId, i) == head + a + tail;
    assert OutputName(taskId, j) == head + b + tail;
    assert |a| == |b|;
    assert a == (head + a + tail)[|head|..|head| + |a|];
    assert b == (head + b + tail)[|head|..|head| + |b|];
    NatToStringInjective(i, j);
  }

  /** Joining the same directory with two names that agree on being
      absolute gives equal paths only for equal names. */
  lemma JoinPathInjective(dir: string, a: string, b: string)
    requires a != [] && b != [] && a[0] == b[0]
    requires JoinPath(dir, a) == JoinPath(dir, b)
    ensures a == b
  {
    var p := JoinPath(dir, a);
    JoinPathEndsWithName(dir, a);
    JoinPathEndsWithName(dir, b);
    assert p[|p| - |a|..] == a;
    assert p[|p| - |b|..] == b;
  }

  /** First half of an iteration: `combine_videos`, then one progress step. */
  method CombineOutput(store: StateStore, env: Services, concat: ConcatMode, count: nat, index: nat, progress: real)
    returns (progressAfter: real)
    requires count > 0
    modifies store, env
    ensures progressAfter == progress + Step(count)
    ensures store.log == old(store.log) + [ProgressOnly(progressAfter)]
    ensures env.calls == old(env.calls) + [CombineVideos(index, concat)]
  {
    ghost var log0 := store.log;
    env.Invoke(CombineVideos(index, concat));
    assert store.log == log0;
    progressAfter := progress + 50.0 / (count as real) / 2.0;
    store.UpdateTask(ProgressOnly(progressAfter));
  }

  /** Second half of an iteration: `generate_video`, one progress step,
      and the hook clip if asked. */
  method RenderOutput(store: StateStore, env: Services, taskId: string, useHook: bool, count: nat, index: nat,
                      progress: real)
    returns (path: string, progressAfter: real)
    requires count > 0
    modifies store, env
    ensures path == OutputPath(env.replies, taskId, useHook, index)
    ensures progressAfter == progress + Step(count)
    ensures store.log == old(store.log) + [ProgressOnly(progressAfter)]
    ensures env.calls == old(env.calls) + [GenerateVideo(index)] + (if useHook then [AddHook(index)] else [])
  {
    ghost var log0 := store.log;
    path := JoinPath(env.replies.finalDir, OutputName(taskId, index));
    env.Invoke(GenerateVideo(index));
    assert store.log == log0;
    progressAfter := progress + 50.0 / (count as real) / 2.0;
    store.UpdateTask(ProgressOnly(progressAfter));
    if useHook {
      env.Invoke(AddHook(index));
      path := env.replies.hook(path);
    }
  }

  /** One whole iteration of the loop, for output `index`, entered with the
      progress left by the previous iterations. */
  method RenderIteration(store: StateStore, env: Services, taskId: string, useHook: bool, concat: ConcatMode,
                         count: nat, index: nat, progress: real)
    returns (path: string, progressAfter: real)
    requires 1 <= index <= count
    requires progress == Accumulated(count, 2 * index - 2)
    modifies store, env
    ensures path == OutputPath(env.replies, taskId, useHook, index)
    ensures progressAfter == Accumulated(count, 2 * index)
    ensures store.log == old(store.log) + IterationUpdates(count, index)
    ensures env.calls == old(env.calls) + IterationCalls(index, concat, useHook)
  {
    ghost var log0 := store.log;
    ghost var calls0 := env.calls;
    var halfway := CombineOutput(store, env, concat, count, index, progress);
    assert halfway == Accumulated(count, 2 * index - 1);
    assert store.log == log0 + [ProgressOnly(halfway)];
    assert env.calls == calls0 + [CombineVideos(index, concat)];
    path, progressAfter := RenderOutput(store, env, taskId, useHook, count, index, halfway);
    assert store.log == log0 + [ProgressOnly(halfway), ProgressOnly(progressAfter)];
  }

  /** The loop over `range(video_count)`, with `useHook` the
      `use_transitional_hook` parameter and `concat` the concat mode for
      this run; gives back `final_video_paths` and the last value bound to
      `final_video_path`, if any. */
  method RenderOutputs(store: StateStore, env: Services, taskId: string, videoCount: int, useHook: bool,
                       concat: ConcatMode)
    returns (paths: seq<string>, last: Option<string>)
    modifies store, env
    ensures var n: nat := if videoCount > 0 then videoCount else 0;
            paths == OutputPaths(env.replies, taskId, useHook, n)
            && last == (if n == 0 then None else Some(OutputPath(env.replies, taskId, useHook, n)))
            && store.log == old(store.log) + LoopUpdates(n, n)
            && env.calls == old(env.calls) + LoopCalls(n, concat, useHook)
  {
    var n: nat := if videoCount > 0 then videoCount else 0;
    paths := [];
    last := None;
    var progress: real := 50.0;
    var i := 0;
    while i < videoCount
      invariant 0 <= i <= n
      invariant paths == OutputPaths(env.replies, taskId, useHook, i)
      invariant last == (if i == 0 then None else Some(OutputPath(env.replies, taskId, useHook, i)))
      invariant n > 0 ==> progress == Accumulated(n, 2 * i)
      invariant store.log == old(store.log) + LoopUpdates(n, i)
      invariant env.calls == old(env.calls) + LoopCalls(i, concat, useHook)
    {
      var path;
      ghost var log0 := store.log;
      ghost var calls0 := env.calls;
      path, progress := RenderIteration(store, env, taskId, useHook, concat, n, i + 1, progress);
      assert store.log == log0 + IterationUpdates(n, i + 1);
      assert env.calls == calls0 + IterationCalls(i + 1, concat, useHook);
      AppendAssoc(old(store.log), LoopUpdates(n, i), IterationUpdates(n, i + 1));
      AppendAssoc(old(env.calls), LoopCalls(i, concat, useHook), IterationCalls(i + 1, concat, useHook));
      paths := paths + [path];
      last := Some(path);
      i := i + 1;
    }
  }

  /** Regrouping a concatenation; called in the loop above, where the
      solver is much slower to find it unaided. */
  lemma AppendAssoc<T>(a: seq<T>, b: seq<T>, c: seq<T>)
    ensures (a + b) + c == a + (b + c)
  {
  }

  /** `generate_final_videos(task_id, params, ...)`: `mode` is the parsed
      `params.video_concat_mode`. */
  method GenerateFinalVideos(store: StateStore, env: Services, taskId: string, p: Params, mode: ConcatMode)
    returns (out: FinalOut)
    modifies store, env
    ensures var st := FinalStage(env.replies, taskId, p, mode);
            out == st.out && store.log == old(store.log) + st.updates && env.calls == old(env.calls) + st.calls
  {
    var paths, last := RenderOutputs(store, env, taskId, p.videoCount, p.useHook, ConcatModeFor(p.videoCount, mode));
    if p.uploadToYoutube {
      match last {
        case None =>
          return FinalRaised(UnboundLocalError);
        case Some(path) =>
          if env.replies.fileExists(path) {
            return FinalRaised(TypeError);
          }
      }
    }
    var _ := Cleanup.SafeCleanupTaskDir(Cleanup.DefaultRetries, env.replies.cleanup);
    env.Invoke(CleanupTaskDir);
    out := Videos(paths);
  }
}
