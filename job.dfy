/**
  The data the orchestrator works on: the job parameters, the updates it
  writes to the job state store, the calls it makes on its collaborators,
  and what a run returns. The state store and the collaborators are objects
  whose logs the orchestrator appends to.
 */
module Job {
  import opened Wrappers
  import Cleanup

  /** The lifecycle states the orchestrator writes (`const.TASK_STATE_*`). */
  datatype TaskState = Processing | Complete | Failed

  /** A value stored in the state store or returned to the caller. */
  datatype Value = Text(s: string) | Texts(items: seq<string>) | Count(n: int)

  /** The names of the result entries `start` stores in the job state and
      returns to its caller. */
  datatype Field = VideosKey | ScriptKey | TermsKey | AudioFileKey | AudioDurationKey | SubtitlePathKey | MaterialsKey

  /** The key each entry is stored and returned under. */
  function FieldName(f: Field): string {
    match f
    case VideosKey => "videos"
    case ScriptKey => "script"
    case TermsKey => "terms"
    case AudioFileKey => "audio_file"
    case AudioDurationKey => "audio_duration"
    case SubtitlePathKey => "subtitle_path"
    case MaterialsKey => "materials"
  }

  /** The keyword arguments of one `sm.state.update_task(task_id, ...)` call:
      `state` and `progress` are None when the call does not pass them, and
      `fields` holds the extra keyword arguments. */
  datatype Update = Update(state: Option<TaskState>, progress: Option<real>, fields: map<Field, Value>)

  /** `update_task(state=PROCESSING, progress=p)` */
  function Progressing(p: real): Update {
    Update(Some(Processing), Some(p), map[])
  }

  /** `update_task(progress=p)` */
  function ProgressOnly(p: real): Update {
    Update(None, Some(p), map[])
  }

  /** `update_task(state=FAILED)` */
  const FailedUpdate := Update(Some(Failed), None, map[])

  /** `update_task(state=COMPLETE, progress=100, **fields)` */
  function Completed(fields: map<Field, Value>): Update {
    Update(Some(Complete), Some(100.0), fields)
  }

  predicate Terminal(u: Update) {
    u.state == Some(Complete) || u.state == Some(Failed)
  }

  /** Every update carries a progress, each strictly higher than all before it. */
  predicate ProgressRises(us: seq<Update>) {
    (forall k :: 0 <= k < |us| ==> us[k].progress.Some?)
    && forall i, j :: 0 <= i < j < |us| ==> us[i].progress.value < us[j].progress.value
  }

  /** `params.video_terms`: absent, a string, a list of strings, or a value
      of some other shape, with its truthiness and its `str()`. */
  datatype TermsInput =
    | NoTerms
    | TermsText(text: string)
    | TermsList(items: seq<string>)
    | TermsOther(truthy: bool, shown: string)

  /** Python's truthiness of `params.video_terms`. */
  predicate Truthy(t: TermsInput) {
    match t
    case NoTerms => false
    case TermsText(s) => s != []
    case TermsList(xs) => xs != []
    case TermsOther(b, _) => b
  }

  /** `VideoConcatMode` members. */
  datatype ConcatMode = Random | Sequential

  /** `params.video_concat_mode`: an enum member or a plain string. */
  datatype ConcatModeInput = ModeMember(mode: ConcatMode) | ModeText(text: string)

  /** The `VideoParams` fields the orchestrator reads itself; the rest are
      passed through to collaborators and are not modelled. */
  datatype Params = Params(
    subject: string,              // video_subject
    script: string,               // video_script
    terms: TermsInput,            // video_terms
    source: string,               // video_source
    subtitleEnabled: bool,        // subtitle_enabled
    videoCount: int,              // video_count
    concatMode: ConcatModeInput,  // video_concat_mode
    useHook: bool,                // use_transitional_hook
    uploadToYoutube: bool)        // upload_to_youtube

  /** A call on a collaborator, or a file the orchestrator writes itself. */
  datatype Call =
    | GenerateScriptLlm                       // llm.generate_script
    | GenerateTermsLlm(amount: int)           // llm.generate_terms(amount=...)
    | SaveScriptData                          // script.json written
    | Tts                                     // voice.tts
    | EdgeSubtitle                            // voice.create_subtitle
    | WhisperSubtitle                         // subtitle.create
    | CorrectSubtitle                         // subtitle.correct
    | ParseSubtitle                           // subtitle.file_to_subtitles
    | PreprocessLocal                         // video.preprocess_video
    | DownloadVideos(terms: Value, budget: int)  // material.download_videos(audio_duration=budget)
    | CombineVideos(index: int, mode: ConcatMode)  // video.combine_videos
    | GenerateVideo(index: int)               // video.generate_video
    | AddHook(index: int)                     // video.add_hook_video
    | CleanupTaskDir                          // safe_cleanup_task_dir

  /** Exceptions that escape `start`. */
  datatype Exc = ValueError | TypeError | UnboundLocalError

  /** What `start` does for its caller: returns None, returns a dict, or raises. */
  datatype RunResult = NoPayload | Payload(fields: map<Field, Value>) | Raised(exc: Exc)

  /** Everything the collaborators answer during one run. */
  datatype Replies = Replies(
    taskDir: string,                 // utils.task_dir(task_id)
    finalDir: string,                // utils.final_videos_dir()
    script: string,                  // llm.generate_script
    terms: seq<string>,              // llm.generate_terms
    speech: Option<real>,            // voice.tts: None, or the measured audio duration
    subtitleProvider: string,        // config.app.get("subtitle_provider", "edge")
    edgeWritesFile: bool,            // whether voice.create_subtitle leaves a file
    subtitleLines: nat,              // how many lines subtitle.file_to_subtitles parses
    localMaterials: seq<string>,     // urls of video.preprocess_video's result
    downloaded: seq<string>,         // material.download_videos
    hook: string -> string,          // video.add_hook_video
    fileExists: string -> bool,      // os.path.exists on a final video
    cleanup: Cleanup.Oracle)         // the file system seen by the cleanup

  /** What one stage produces: its value, the state updates and the calls it makes. */
  datatype Stage<T> = Stage(out: T, updates: seq<Update>, calls: seq<Call>)

  /** The job state store, seen as the log of updates written for this job. */
  class StateStore {
    var log: seq<Update>

    constructor ()
      ensures log == []
    {
      log := [];
    }

    method UpdateTask(u: Update)
      modifies this
      ensures log == old(log) + [u]
    {
      log := log + [u];
    }
  }

  /** The collaborators: fixed answers, and the log of calls made on them. */
  class Services {
    const replies: Replies
    var calls: seq<Call>

    constructor (replies: Replies)
      ensures this.replies == replies && calls == []
    {
      this.replies := replies;
      calls := [];
    }

    method Invoke(c: Call)
      modifies this
      ensures calls == old(calls) + [c]
    {
      calls := calls + [c];
    }
  }
}
