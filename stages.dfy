/**
  The five stages `start` runs before the final render: the script, the
  search terms, the narration, the subtitles and the source footage. Each
  stage is specified by a function from the collaborators' replies to a
  `Stage` (its value, the state updates it writes and the calls it makes),
  and implemented by a method that writes to the state store and calls the
  collaborators, proved to do exactly what the function says.
 */
module Stages {
  import opened Wrappers
  import opened Text
  import opened Job
  import Terms

  /** File names inside the task directory. */
  const AudioName := "audio.mp3"
  const SubtitleName := "subtitle.srt"

  /** Subtitle providers `generate_subtitle` knows. */
  const EdgeProvider := "edge"
  const WhisperProvider := "whisper"

  /** The `video_source` value that selects the user's own clips. */
  const LocalSource := "local"

  // ---------------------------------------------------------------------
  // generate_script

  /** What `generate_script` returns, writes and calls. */
  function ScriptStage(r: Replies, p: Params): Stage<Option<string>>
  {
    var supplied := Strip(p.script);
    var script := if supplied != [] then supplied else r.script;
    var calls := if supplied != [] then [] else [GenerateScriptLlm];
    if script == [] then Stage(None, [FailedUpdate], calls)
    else Stage(Some(script), [], calls)
  }

  /** A supplied script is used stripped; a blank one is replaced by the
      language model's; the stage fails (with one FAILED update) only when
      both are empty. */
  lemma ScriptStageSpec(r: Replies, p: Params, st: Stage<Option<string>>)
    requires st == ScriptStage(r, p)
    ensures st.out.Some? ==> st.out.value != []
    ensures st.out.None? <==> Strip(p.script) == [] && r.script == []
    ensures st.updates == (if st.out.None? then [FailedUpdate] else [])
    ensures Strip(p.script) != [] ==> st.out == Some(Strip(p.script)) && st.calls == []
    ensures Strip(p.script) == [] ==> st.calls == [GenerateScriptLlm]
    ensures Strip(p.script) == [] && r.script != [] ==> st.out == Some(r.script)
  {
  }

  method GenerateScript(store: StateStore, env: Services, p: Params) returns (script: Option<string>)
    modifies store, env
    ensures var st := ScriptStage(env.replies, p);
            script == st.out && store.log == old(store.log) + st.updates && env.calls == old(env.calls) + st.calls
  {
    var s := Strip(p.script);
    if s == [] {
      env.Invoke(GenerateScriptLlm);
      s := env.replies.script;
    }
    if s == [] {
      store.UpdateTask(FailedUpdate);
      return None;
    }
    return Some(s);
  }

  // ---------------------------------------------------------------------
  // generate_terms

  /** The outcome of `generate_terms`: a list, None, or a raised ValueError. */
  datatype TermsOut = TermsOk(terms: seq<string>) | TermsNone | TermsRaised

  /** What `generate_terms` returns, writes and calls. */
  function TermsStage(r: Replies, p: Params): Stage<TermsOut>
  {
    match Terms.NormalizeTerms(p.terms)
    case BadShape => Stage(TermsRaised, [], [])
    case Supplied(ts) => Stage(TermsOk(ts), [], [])
    case Generate(amount) =>
      var calls := [GenerateTermsLlm(amount)];
      if r.terms == [] then Stage(TermsNone, [FailedUpdate], calls)
      else Stage(TermsOk(r.terms), [], calls)
  }

  /** Supplied terms are normalised and never fail; absent ones are asked of
      the language model (five of them), and an empty answer fails the stage;
      a value of another shape raises before anything is written. */
  lemma TermsStageSpec(r: Replies, p: Params, st: Stage<TermsOut>)
    requires st == TermsStage(r, p)
    ensures st.out.TermsRaised? <==> p.terms.TermsOther? && p.terms.truthy
    ensures st.out.TermsRaised? ==> st.updates == [] && st.calls == []
    ensures st.out.TermsNone? <==> !Truthy(p.terms) && r.terms == []
    ensures st.updates == (if st.out.TermsNone? then [FailedUpdate] else [])
    ensures st.out.TermsOk? ==> st.out.terms != []
    ensures Truthy(p.terms) && st.out.TermsOk? ==>
              st.out == TermsOk(Terms.NormalizeTerms(p.terms).terms) && st.calls == []
    ensures !Truthy(p.terms) ==> st.calls == [GenerateTermsLlm(Terms.GeneratedAmount)]
    ensures !Truthy(p.terms) && r.terms != [] ==> st.out == TermsOk(r.terms)
  {
  }

  method GenerateTerms(store: StateStore, env: Services, p: Params) returns (out: TermsOut)
    modifies store, env
    ensures var st := TermsStage(env.replies, p);
            out == st.out && store.log == old(store.log) + st.updates && env.calls == old(env.calls) + st.calls
  {
    var terms: seq<string>;
    match Terms.NormalizeTerms(p.terms) {
      case BadShape =>
        return TermsRaised;
      case Supplied(ts) =>
        terms := ts;
      case Generate(amount) =>
        env.Invoke(GenerateTermsLlm(amount));
        terms := env.replies.terms;
    }
    if terms == [] {
      store.UpdateTask(FailedUpdate);
      return TermsNone;
    }
    return TermsOk(terms);
  }

  // ---------------------------------------------------------------------
  // generate_audio

  /** `math.ceil` of a measured duration. */
  function Ceil(x: real): (n: int)
    ensures n as real - 1.0 < x <= n as real
  {
    if x == x.Floor as real then x.Floor else x.Floor + 1
  }

  /** The narration file and its duration in whole seconds. */
  datatype Audio = Audio(file: string, duration: int)

  /** What `generate_audio` returns, writes and calls. */
  function AudioStage(r: Replies, p: Params): Stage<Option<Audio>>
  {
    var file := JoinPath(r.taskDir, AudioName);
    match r.speech
    case None => Stage(None, [FailedUpdate], [Tts])
    case Some(d) => Stage(Some(Audio(file, Ceil(d))), [], [Tts])
  }

  /** The speech engine is always called; it fails the stage exactly when it
      produces nothing, and otherwise the duration is the measured length
      rounded up and the file is `audio.mp3` in the task directory. */
  lemma AudioStageSpec(r: Replies, p: Params, st: Stage<Option<Audio>>)
    requires st == AudioStage(r, p)
    ensures st.calls == [Tts]
    ensures st.out.None? <==> r.speech.None?
    ensures st.updates == (if st.out.None? then [FailedUpdate] else [])
    ensures st.out.Some? ==>
              st.out.value.file == JoinPath(r.taskDir, AudioName) && st.out.value.file != [] &&
              st.out.value.duration as real - 1.0 < r.speech.value <= st.out.value.duration as real
  {
    JoinPathEndsWithName(r.taskDir, AudioName);
  }

  method GenerateAudio(store: StateStore, env: Services, p: Params) returns (audio: Option<Audio>)
    modifies store, env
    ensures var st := AudioStage(env.replies, p);
            audio == st.out && store.log == old(store.log) + st.updates && env.calls == old(env.calls) + st.calls
  {
    var file := JoinPath(env.replies.taskDir, AudioName);
    ghost var log0 := store.log;
    env.Invoke(Tts);
    assert store.log == log0;
    match env.replies.speech {
      case None =>
        store.UpdateTask(FailedUpdate);
        return None;
      case Some(d) =>
        return Some(Audio(file, Ceil(d)));
    }
  }

  // ---------------------------------------------------------------------
  // generate_subtitle

  /** The configured subtitle provider, stripped and lower-cased. */
  function Provider(r: Replies): string {
    Lower(Strip(r.subtitleProvider))
  }

  /** Whether the Whisper transcription runs for a (normalised) `provider`:
      when it is Whisper, or when it is Edge and Edge left no subtitle file
      behind. */
  predicate UsesWhisper(provider: string, edgeWritesFile: bool) {
    provider == WhisperProvider || (provider == EdgeProvider && !edgeWritesFile)
  }

  /** The calls `generate_subtitle` makes once subtitles are enabled: Edge
      when it is the provider, Whisper and the correction when `UsesWhisper`,
      and the parse of the subtitle file last. */
  function SubtitleCalls(provider: string, edgeWritesFile: bool): seq<Call> {
    (if provider == EdgeProvider then [EdgeSubtitle] else [])
    + (if UsesWhisper(provider, edgeWritesFile) then [WhisperSubtitle, CorrectSubtitle] else [])
    + [ParseSubtitle]
  }

  /** What `generate_subtitle` returns and calls. */
  function SubtitleStage(r: Replies, p: Params): Stage<string>
  {
    if !p.subtitleEnabled then Stage([], [], [])
    else
      var path := JoinPath(r.taskDir, SubtitleName);
      Stage(if r.subtitleLines == 0 then [] else path, [], SubtitleCalls(Provider(r), r.edgeWritesFile))
  }

  /** The subtitle stage never fails the run: it gives a path when the
      subtitle file parses to at least one line and "" otherwise. */
  lemma SubtitleStageSpec(r: Replies, p: Params, st: Stage<string>)
    requires st == SubtitleStage(r, p)
    ensures st.updates == []
    ensures !p.subtitleEnabled ==> st.out == [] && st.calls == []
    ensures p.subtitleEnabled ==> st.calls == SubtitleCalls(Provider(r), r.edgeWritesFile)
    ensures st.out != [] <==> p.subtitleEnabled && r.subtitleLines > 0
    ensures st.out != [] ==> st.out == JoinPath(r.taskDir, SubtitleName)
  {
    JoinPathEndsWithName(r.taskDir, SubtitleName);
  }

  /** Which subtitle engines run: Edge exactly when it is the provider,
      Whisper exactly when `UsesWhisper`, always followed by the correction,
      and the subtitle file is parsed last. */
  lemma SubtitleEngines(provider: string, edgeWritesFile: bool)
    ensures EdgeSubtitle in SubtitleCalls(provider, edgeWritesFile) <==> provider == EdgeProvider
    ensures WhisperSubtitle in SubtitleCalls(provider, edgeWritesFile) <==> UsesWhisper(provider, edgeWritesFile)
    ensures WhisperSubtitle in SubtitleCalls(provider, edgeWritesFile) <==> CorrectSubtitle in SubtitleCalls(provider, edgeWritesFile)
    ensures SubtitleCalls(provider, edgeWritesFile)[|SubtitleCalls(provider, edgeWritesFile)| - 1] == ParseSubtitle
  {
  }

  method GenerateSubtitle(env: Services, p: Params) returns (path: string)
    modifies env
    ensures var st := SubtitleStage(env.replies, p);
            path == st.out && env.calls == old(env.calls) + st.calls
  {
    if !p.subtitleEnabled {
      return [];
    }
    var subtitlePath := JoinPath(env.replies.taskDir, SubtitleName);
    var provider := Provider(env.replies);
    var edgeWritesFile := env.replies.edgeWritesFile;
    var fallback := false;
    ghost var calls0 := env.calls;
    if provider == EdgeProvider {
      env.Invoke(EdgeSubtitle);
      if !edgeWritesFile {
        fallback := true;
      }
    }
    ghost var edge := if provider == EdgeProvider then [EdgeSubtitle] else [];
    ghost var whisper := if UsesWhisper(provider, edgeWritesFile) then [WhisperSubtitle, CorrectSubtitle] else [];
    ghost var calls1 := env.calls;
    assert calls1 == calls0 + edge;
    assert fallback <==> provider == EdgeProvider && !edgeWritesFile;
    if provider == WhisperProvider || fallback {
      env.Invoke(WhisperSubtitle);
      env.Invoke(CorrectSubtitle);
    }
    ghost var calls2 := env.calls;
    assert calls2 == calls1 + whisper;
    env.Invoke(ParseSubtitle);
    assert calls0 + edge + whisper + [ParseSubtitle] == calls0 + (edge + whisper + [ParseSubtitle]);
    if env.replies.subtitleLines == 0 {
      return [];
    }
    return subtitlePath;
  }

  // ---------------------------------------------------------------------
  // get_video_materials

  /** What `get_video_materials` returns, writes and calls, given the
      search terms and the narration length. */
  function MaterialsStage(r: Replies, p: Params, terms: Value, duration: int): Stage<Option<seq<string>>>
  {
    var local := p.source == LocalSource;
    var found := if local then r.localMaterials else r.downloaded;
    var calls := if local then [PreprocessLocal] else [DownloadVideos(terms, duration * p.videoCount)];
    if found == [] then Stage(None, [FailedUpdate], calls)
    else Stage(Some(found), [], calls)
  }

  /** The source footage: the user's clips when the source is local, and
      otherwise a download sized for every requested video (the narration
      length times the number of videos); an empty result fails the stage. */
  lemma MaterialsStageSpec(r: Replies, p: Params, terms: Value, duration: int, st: Stage<Option<seq<string>>>)
    requires st == MaterialsStage(r, p, terms, duration)
    ensures st.out.Some? ==> st.out.value != []
    ensures st.updates == (if st.out.None? then [FailedUpdate] else [])
    ensures p.source == LocalSource ==>
              st.calls == [PreprocessLocal] && (st.out.None? <==> r.localMaterials == [])
              && (st.out.Some? ==> st.out.value == r.localMaterials)
    ensures p.source != LocalSource ==>
              st.calls == [DownloadVideos(terms, duration * p.videoCount)] && (st.out.None? <==> r.downloaded == [])
              && (st.out.Some? ==> st.out.value == r.downloaded)
  {
  }

  method GetVideoMaterials(store: StateStore, env: Services, p: Params, terms: Value, duration: int)
    returns (materials: Option<seq<string>>)
    modifies store, env
    ensures var st := MaterialsStage(env.replies, p, terms, duration);
            materials == st.out && store.log == old(store.log) + st.updates && env.calls == old(env.calls) + st.calls
  {
    var found: seq<string>;
    if p.source == LocalSource {
      env.Invoke(PreprocessLocal);
      found := env.replies.localMaterials;
    } else {
      env.Invoke(DownloadVideos(terms, duration * p.videoCount));
      found := env.replies.downloaded;
    }
    if found == [] {
      store.UpdateTask(FailedUpdate);
      return None;
    }
    return Some(found);
  }
}
