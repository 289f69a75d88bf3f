/** `FeatureExtractionService` of app/services/feature_extraction_service.py:
    the duration-limited visual contexts, the style features and the
    audio-visual hook, composed from the video, LLM, audio and transcript
    models. The decoded video is a `Frames.Video` value; every model reply and
    the speech recogniser are parameters. */
module FeatureExtraction {
  import opened Wrappers
  import opened Frames
  import opened Windows
  import VisualService
  import ClientLlmAgent
  import LlmAgent
  import Transcription
  import Transcript
  import AudioProcessor
  import JsonData

  /** The longest stretch of a video sent for visual features. */
  const VisualCutoffSeconds: real := 5.0

  function MinReal(a: real, b: real): real
  {
    if a <= b then a else b
  }

  /** `get_visual_features` up to the LLM call: the keyframes of at most the
      first `min(duration, 5.0)` seconds, each as a context numbered from 1
      whose window runs from the previous keyframe (0 for the first) to its
      own timestamp, with no transcript. A duration of 0.0 reaches the
      extractor as a falsy limit and cuts nothing. */
  function VisualContexts<F>(videoPath: string, video: Video<F>, meanDiff: (F, F) -> real): (r: Result<seq<KeyframeContext<F>>, Exception>)
    ensures !video.isOpened ==> r == Err(ValueError("Could not open video file: " + videoPath))
    ensures video.isOpened && video.fps == 0.0 ==> r == Err(ZeroDivisionError)
    ensures r.Ok? ==>
      var kfs := VisualService.KeyframesOf(videoPath, video, Some(MinReal(VideoDuration(video).value, VisualCutoffSeconds)), meanDiff);
      kfs.Ok? && r.value == Contexts(kfs.value, NoTranscript)
  {
    var duration := VideoDuration(video);
    if duration.Err? then Err(duration.error)
    else
      var keyframes := VisualService.KeyframesOf(videoPath, video, Some(MinReal(duration.value, VisualCutoffSeconds)), meanDiff);
      if keyframes.Err? then Err(keyframes.error)
      else Ok(Contexts(keyframes.value, NoTranscript))
  }

  /** Every context but the closing one lies strictly within the cutoff
      `min(duration, 5.0)` whenever that cutoff covers at least one frame,
      and no context carries a transcript. */
  lemma VisualContextsWithinCutoff<F>(videoPath: string, video: Video<F>, meanDiff: (F, F) -> real)
    requires video.isOpened && video.fps > 0.0
    requires MinReal(VideoDuration(video).value, VisualCutoffSeconds) * video.fps >= 1.0
    ensures var r := VisualContexts(videoPath, video, meanDiff);
      var cutoff := MinReal(VideoDuration(video).value, VisualCutoffSeconds);
      && r.Ok?
      && (forall i :: 0 <= i < |r.value| - 1 ==> r.value[i].timestamp < cutoff)
      && (forall i :: 0 <= i < |r.value| ==> r.value[i].audioTranscript.None?)
  {
    var cutoff := MinReal(VideoDuration(video).value, VisualCutoffSeconds);
    VisualService.LimitCoversFrameIff(cutoff, video.fps);
    VisualService.KeyframesBeforeCutoff(videoPath, video, cutoff, meanDiff);
    var kfs := VisualService.KeyframesOf(videoPath, video, Some(cutoff), meanDiff).value;
    assert VisualContexts(videoPath, video, meanDiff) == Ok(Contexts(kfs, NoTranscript));
  }

  /** A video whose duration is 0.0 is scanned in full, as with no limit. */
  lemma ZeroDurationScansWholeVideo<F>(videoPath: string, video: Video<F>, meanDiff: (F, F) -> real)
    requires VideoDuration(video) == Ok(0.0)
    ensures VisualContexts(videoPath, video, meanDiff).Ok? ==>
      VisualContexts(videoPath, video, meanDiff)
        == Ok(Contexts(VisualService.KeyframesOf(videoPath, video, None, meanDiff).value, NoTranscript))
  {
    assert VisualService.MaxFrame(Some(MinReal(0.0, VisualCutoffSeconds)), video.fps) == VisualService.MaxFrame(None, video.fps);
  }

  /** `get_visual_features`: the reply to the contexts, None when the
      request fails. */
  function VisualFeatures<F>(videoPath: string, video: Video<F>, meanDiff: (F, F) -> real,
                             generate: seq<KeyframeContext<F>> -> Option<string>): (r: Result<Option<string>, Exception>)
    ensures VisualContexts(videoPath, video, meanDiff).Err? ==> r == Err(VisualContexts(videoPath, video, meanDiff).error)
    ensures VisualContexts(videoPath, video, meanDiff).Ok? ==> r == Ok(generate(VisualContexts(videoPath, video, meanDiff).value))
  {
    var contexts := VisualContexts(videoPath, video, meanDiff);
    if contexts.Err? then Err(contexts.error) else Ok(generate(contexts.value))
  }

  /** `get_style_features`: the style features of all keyframes (no cutoff).
      The result always has both fields; a failed extraction propagates. */
  function StyleFeatures<F>(videoPath: string, video: Video<F>, meanDiff: (F, F) -> real,
                            respond: seq<F> -> Result<JsonData.Json, Exception>): (r: Result<ClientLlmAgent.StyleFeatures, Exception>)
    ensures var kfs := VisualService.KeyframesOf(videoPath, video, None, meanDiff);
      && (kfs.Err? ==> r == Err(kfs.error))
      && (kfs.Ok? ==> r == Ok(ClientLlmAgent.StyleOf(ClientLlmAgent.ScanFrom(ClientLlmAgent.Chunks(ClientLlmAgent.Images(kfs.value)), 0, ClientLlmAgent.NoFlags, respond))))
  {
    var keyframes := VisualService.KeyframesOf(videoPath, video, None, meanDiff);
    if keyframes.Err? then Err(keyframes.error)
    else
      var chunks := ClientLlmAgent.Chunks(ClientLlmAgent.Images(keyframes.value));
      Ok(ClientLlmAgent.StyleOf(ClientLlmAgent.ScanFrom(chunks, 0, ClientLlmAgent.NoFlags, respond)))
  }

  /** When the first five keyframes already show a face and a product, the
      creator is reported visible and no further chunk is sent. */
  lemma FirstChunkDecides<F>(videoPath: string, video: Video<F>, meanDiff: (F, F) -> real,
                             respond: seq<F> -> Result<JsonData.Json, Exception>)
    requires VisualService.KeyframesOf(videoPath, video, None, meanDiff).Ok?
    requires var kfs := VisualService.KeyframesOf(videoPath, video, None, meanDiff).value;
      var first := respond(ClientLlmAgent.Images(kfs)[..if |kfs| < 5 then |kfs| else 5]);
      && kfs != []
      && first.Ok? && ClientLlmAgent.Update(ClientLlmAgent.NoFlags, first.value).Ok?
      && ClientLlmAgent.Done(ClientLlmAgent.Update(ClientLlmAgent.NoFlags, first.value).value)
    ensures StyleFeatures(videoPath, video, meanDiff, respond).Ok?
    ensures StyleFeatures(videoPath, video, meanDiff, respond).value.creatorVisible == Some("Face is visible")
    ensures var kfs := VisualService.KeyframesOf(videoPath, video, None, meanDiff).value;
      ClientLlmAgent.ScanFrom(ClientLlmAgent.Chunks(ClientLlmAgent.Images(kfs)), 0, ClientLlmAgent.NoFlags, respond).value.1 == 1
  {
    var kfs := VisualService.KeyframesOf(videoPath, video, None, meanDiff).value;
    var images := ClientLlmAgent.Images(kfs);
    ClientLlmAgent.ChunkAt(images, 0);
  }

  // ------------------------------------------------------------------ hook

  /** The hook result: exactly the three fields of the source's dict. */
  datatype Hook = Hook(screenHook: string, audioHook: string, shootingStyle: LlmAgent.ShootingStyle)

  /** Python's `not full_script`. */
  predicate Falsy(script: Option<string>)
  {
    script.None? || script.value == ""
  }

  /** The script the hook is taken from: the given one, or a transcription of
      the video file itself when none is given. */
  function ScriptFor(videoPath: string, fullScript: Option<string>,
                     recognize: (string, Transcription.Engine, Transcription.Recording) -> Transcription.Recognition): (r: Result<string, Exception>)
    ensures !Falsy(fullScript) ==> r == Ok(fullScript.value)
    ensures Falsy(fullScript) ==> r == Transcription.Transcribe(videoPath, None, None, AudioProcessor.DefaultModel, recognize)
  {
    if Falsy(fullScript) then Transcription.Transcribe(videoPath, None, None, AudioProcessor.DefaultModel, recognize)
    else Ok(fullScript.value)
  }

  /** `get_audio_visual_hook`: the screen hook of the frame at one second,
      the first sentence of the script, and the shooting style of the frame
      and script. A transcription that raises propagates. */
  function AudioVisualHook<F>(videoPath: string, video: Video<F>, fullScript: Option<string>,
                              screenReply: Result<string, Exception>, styleReply: Result<string, Exception>,
                              analysisReply: string -> Result<string, Exception>,
                              recognize: (string, Transcription.Engine, Transcription.Recording) -> Transcription.Recognition): (r: Result<Hook, Exception>)
    ensures var script := ScriptFor(videoPath, fullScript, recognize);
      && (script.Err? ==> r == Err(script.error))
      && (script.Ok? ==>
            var frame := VisualService.HookFrameOf(video, 1);
            r == Ok(Hook(LlmAgent.ScreenHook(frame, screenReply), Transcript.AudioHook(Some(script.value)),
                         LlmAgent.HookAnalysis(frame, Some(script.value), styleReply, analysisReply))))
  {
    var frame := VisualService.HookFrameOf(video, 1);
    var screenHook := LlmAgent.ScreenHook(frame, screenReply);
    var script := ScriptFor(videoPath, fullScript, recognize);
    if script.Err? then Err(script.error)
    else
      Ok(Hook(screenHook, Transcript.AudioHook(Some(script.value)),
              LlmAgent.HookAnalysis(frame, Some(script.value), styleReply, analysisReply)))
  }

  /** A given script is used as is: the recogniser is never consulted. */
  lemma GivenScriptNotTranscribed<F>(videoPath: string, video: Video<F>, fullScript: string,
                                     screenReply: Result<string, Exception>, styleReply: Result<string, Exception>,
                                     analysisReply: string -> Result<string, Exception>,
                                     recognize1: (string, Transcription.Engine, Transcription.Recording) -> Transcription.Recognition,
                                     recognize2: (string, Transcription.Engine, Transcription.Recording) -> Transcription.Recognition)
    requires fullScript != ""
    ensures AudioVisualHook(videoPath, video, Some(fullScript), screenReply, styleReply, analysisReply, recognize1)
         == AudioVisualHook(videoPath, video, Some(fullScript), screenReply, styleReply, analysisReply, recognize2)
    ensures AudioVisualHook(videoPath, video, Some(fullScript), screenReply, styleReply, analysisReply, recognize1).Ok?
  {
  }

  /** Without a script, a video file the recogniser cannot read gives the
      no-script audio hook, and one in which it hears no speech raises
      TypeError. */
  lemma MissingScriptOutcomes<F>(videoPath: string, video: Video<F>,
                                 screenReply: Result<string, Exception>, styleReply: Result<string, Exception>,
                                 analysisReply: string -> Result<string, Exception>,
                                 recognize: (string, Transcription.Engine, Transcription.Recording) -> Transcription.Recognition)
    ensures var rec := recognize(videoPath, Transcription.Google, Transcription.WholeFile);
      var r := AudioVisualHook(videoPath, video, None, screenReply, styleReply, analysisReply, recognize);
      && (rec.Failed? ==> r.Ok? && r.value.audioHook == Transcript.NoScriptError)
      && (rec.UnknownValue? ==> r == Err(TypeError))
  {
    assert Transcription.EngineFor(AudioProcessor.DefaultModel) == Transcription.Google;
    assert Transcription.RecordingFor(None, None) == Transcription.WholeFile;
  }
}
