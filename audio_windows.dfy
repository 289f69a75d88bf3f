/** The body `process_video` of app/services/recommendation_service.py and
    app/services/video_service.py share once the keyframes are known: the
    audio track is extracted to a WAV file, transcribed whole and then once
    per keyframe window, the WAV file is removed, and only then are the
    summary and the screenplay requested. The speech recogniser and the two
    language-model calls are parameters; the effects on the local files are
    performed on a `World`. */
module AudioWindows {
  import opened Wrappers
  import opened Frames
  import opened Windows
  import opened Effects
  import opened Transcription
  import AudioPaths

  /** The transcript source of the loop: `transcribe(audio_path, start, end)`
      of the audio service, which never raises with both bounds given. */
  function WindowTranscript(audioPath: string, recognize: (string, Engine, Recording) -> Recognition): (real, real) -> Option<string>
  {
    (start: real, end: real) =>
      var t := Transcribe(audioPath, Some(start), Some(end), AudioServiceModel, recognize);
      if t.Ok? then Some(t.value) else None
  }

  /** The transcription performed for each context, in context order. */
  function WindowEvents<F>(audioPath: string, contexts: seq<KeyframeContext<F>>): (es: seq<Event>)
    ensures |es| == |contexts|
  {
    seq(|contexts|, i requires 0 <= i < |contexts| =>
      Transcribed(audioPath, Some(contexts[i].windowStart), Some(contexts[i].windowEnd)))
  }

  /** The calls of `process_video` to the language model, in order. */
  const SummaryCall: string := "generate_summary"
  const ScreenplayCall: string := "generate_screenplay"

  datatype ProcessStep<S, P> = ProcessStep(result: Result<(S, P), Exception>, files: set<string>, events: seq<Event>)

  /** What `process_video` does after the keyframes, with the WAV path
      `audioPath`: a failed extraction raises ValueError before anything
      else; a complete transcript that raises (TypeError, see
      `Transcription.Transcribe`) propagates and leaves the WAV file behind;
      otherwise the contexts, the removal of the WAV file and the two
      requests follow, and the pair of the summary and the screenplay of
      the summary and the complete transcript is returned. */
  function Process<F, S, P>(
    files: set<string>, videoPath: string, audioPath: string, caption: string,
    keyframes: seq<Keyframe<F>>, decodes: bool,
    recognize: (string, Engine, Recording) -> Recognition,
    generateSummary: (seq<KeyframeContext<F>>, string) -> S,
    generateScreenplay: (S, string) -> P): ProcessStep<S, P>
  {
    if !(videoPath in files && decodes) then
      ProcessStep(Err(ValueError("Unable to extract audio from " + videoPath)), files, [])
    else
      var complete := Transcribe(audioPath, None, None, AudioServiceModel, recognize);
      var head := [AudioExtracted(videoPath, audioPath), Transcribed(audioPath, None, None)];
      if complete.Err? then
        ProcessStep(Err(complete.error), files + {audioPath}, head)
      else
        var contexts := Contexts(keyframes, WindowTranscript(audioPath, recognize));
        var summary := generateSummary(contexts, caption);
        ProcessStep(Ok((summary, generateScreenplay(summary, complete.value))), files + {audioPath} - {audioPath},
                    head + WindowEvents(audioPath, contexts) + [Removed(audioPath), Requested(SummaryCall), Requested(ScreenplayCall)])
  }

  /** `process_video` with the WAV path it builds,
      `f"{tempfile.gettempdir()}/{os.path.splitext(os.path.basename(video_path))[0]}.wav"`. */
  function ProcessIn<F, S, P>(
    files: set<string>, tempDir: string, videoPath: string, caption: string,
    keyframes: seq<Keyframe<F>>, decodes: bool,
    recognize: (string, Engine, Recording) -> Recognition,
    generateSummary: (seq<KeyframeContext<F>>, string) -> S,
    generateScreenplay: (S, string) -> P): ProcessStep<S, P>
  {
    Process(files, videoPath, AudioPaths.WavPath(tempDir, videoPath), caption, keyframes, decodes,
            recognize, generateSummary, generateScreenplay)
  }

  /** The outcome classes: ValueError exactly when the extraction fails, and
      then nothing happened; the complete transcript's error otherwise when it
      raises; success otherwise. A success leaves the files as they were less
      the WAV path, and its screenplay is made from its summary and the
      complete transcript. */
  lemma ProcessOutcomes<F, S, P>(
    files: set<string>, videoPath: string, audioPath: string, caption: string,
    keyframes: seq<Keyframe<F>>, decodes: bool,
    recognize: (string, Engine, Recording) -> Recognition,
    generateSummary: (seq<KeyframeContext<F>>, string) -> S,
    generateScreenplay: (S, string) -> P)
    ensures var s := Process(files, videoPath, audioPath, caption, keyframes, decodes, recognize, generateSummary, generateScreenplay);
      var complete := Transcribe(audioPath, None, None, AudioServiceModel, recognize);
      && (s.result == Err(ValueError("Unable to extract audio from " + videoPath)) <==> !(videoPath in files && decodes))
      && (!(videoPath in files && decodes) ==> s.files == files && s.events == [])
      && (videoPath in files && decodes && complete.Err? ==> s.result == Err(TypeError) && audioPath in s.files)
      && (s.result.Ok? <==> videoPath in files && decodes && complete.Ok?)
      && (s.result.Ok? ==> s.files == files - {audioPath} && s.result.value.1 == generateScreenplay(s.result.value.0, complete.value))
  {
  }

  /** Every window transcript of a context is a string: with both bounds
      given `transcribe` never raises. */
  lemma WindowTranscriptsPresent<F>(keyframes: seq<Keyframe<F>>, audioPath: string, recognize: (string, Engine, Recording) -> Recognition)
    ensures var cs := Contexts(keyframes, WindowTranscript(audioPath, recognize));
      forall i :: 0 <= i < |cs| ==> cs[i].audioTranscript.Some?
  {
    var cs := Contexts(keyframes, WindowTranscript(audioPath, recognize));
    forall i | 0 <= i < |cs| ensures cs[i].audioTranscript.Some? {
      BoundedNeverRaises(audioPath, cs[i].windowStart, cs[i].windowEnd, AudioServiceModel, recognize);
    }
  }

  /** The first window starts at 0, which `transcribe` reads as "no start":
      the first context's transcript is a recognition of the whole file, the
      same recording as the complete transcript, so it equals the complete
      transcript whenever that one does not raise. */
  lemma FirstWindowIsCompleteTranscript<F>(keyframes: seq<Keyframe<F>>, audioPath: string, recognize: (string, Engine, Recording) -> Recognition)
    requires |keyframes| > 0
    requires Transcribe(audioPath, None, None, AudioServiceModel, recognize).Ok?
    ensures Contexts(keyframes, WindowTranscript(audioPath, recognize))[0].audioTranscript
            == Some(Transcribe(audioPath, None, None, AudioServiceModel, recognize).value)
  {
    var cs := Contexts(keyframes, WindowTranscript(audioPath, recognize));
    ZeroStartIsWholeFile(Some(0.0), Some(keyframes[0].timestamp));
    assert cs[0].windowStart == 0.0;
  }

  /** The order of the effects of a successful run: the extraction first,
      then the complete transcript and one transcription per keyframe window,
      then the removal of the WAV file, and the two requests last. No
      transcription follows the removal and no request precedes it. */
  lemma ProcessOrder<F, S, P>(
    files: set<string>, videoPath: string, audioPath: string, caption: string,
    keyframes: seq<Keyframe<F>>, decodes: bool,
    recognize: (string, Engine, Recording) -> Recognition,
    generateSummary: (seq<KeyframeContext<F>>, string) -> S,
    generateScreenplay: (S, string) -> P)
    requires Process(files, videoPath, audioPath, caption, keyframes, decodes, recognize, generateSummary, generateScreenplay).result.Ok?
    ensures var es := Process(files, videoPath, audioPath, caption, keyframes, decodes, recognize, generateSummary, generateScreenplay).events;
      var k := |es| - 3;
      && |es| == |keyframes| + 5
      && es[0] == AudioExtracted(videoPath, audioPath)
      && es[k] == Removed(audioPath)
      && es[k + 1] == Requested(SummaryCall) && es[k + 2] == Requested(ScreenplayCall)
      && (forall i :: 0 <= i < |es| && es[i].Transcribed? ==> 0 < i < k && es[i].audioPath == audioPath)
      && (forall i :: 0 <= i < |es| && es[i].Requested? ==> k < i)
      && (forall i :: 0 <= i < |es| && es[i].Removed? ==> i == k)
  {
    var contexts := Contexts(keyframes, WindowTranscript(audioPath, recognize));
    var ws := WindowEvents(audioPath, contexts);
    var head := [AudioExtracted(videoPath, audioPath), Transcribed(audioPath, None, None)];
    var es := head + ws + [Removed(audioPath), Requested(SummaryCall), Requested(ScreenplayCall)];
    assert Process(files, videoPath, audioPath, caption, keyframes, decodes, recognize, generateSummary, generateScreenplay).events == es;
    var k := |es| - 3;
    forall i | 0 <= i < |es|
      ensures es[i].Transcribed? ==> 0 < i < k && es[i].audioPath == audioPath
      ensures es[i].Requested? ==> k < i
      ensures es[i].Removed? ==> i == k
    {
      if 2 <= i < k {
        assert es[i] == ws[i - 2];
      }
    }
  }

  /** The per-keyframe loop of `process_video`: one context per keyframe,
      each with the transcript of its window, one transcription each. */
  method TranscribeWindows<F>(w: World, audioPath: string, keyframes: seq<Keyframe<F>>, recognize: (string, Engine, Recording) -> Recognition)
    returns (contexts: seq<KeyframeContext<F>>)
    modifies w
    ensures contexts == Contexts(keyframes, WindowTranscript(audioPath, recognize))
    ensures w.trace == old(w.trace) + WindowEvents(audioPath, contexts)
    ensures w.objects == old(w.objects) && w.files == old(w.files) && w.browserOpen == old(w.browserOpen)
  {
    contexts := [];
    var i := 0;
    while i < |keyframes|
      invariant 0 <= i <= |keyframes|
      invariant |contexts| == i
      invariant forall j :: 0 <= j < i ==> contexts[j] == ContextAt(keyframes, j, WindowTranscript(audioPath, recognize))
      invariant w.trace == old(w.trace) + WindowEvents(audioPath, contexts)
      invariant w.objects == old(w.objects) && w.files == old(w.files) && w.browserOpen == old(w.browserOpen)
    {
      var timestamp := keyframes[i].timestamp;
      var startTime := if i == 0 then 0.0 else keyframes[i - 1].timestamp;
      var audioTranscript := Transcribe(audioPath, Some(startTime), Some(timestamp), AudioServiceModel, recognize);
      w.Record(Transcribed(audioPath, Some(startTime), Some(timestamp)));
      var context := KeyframeContext(i + 1, timestamp, keyframes[i].image, Some(audioTranscript.value), startTime, timestamp);
      assert WindowEvents(audioPath, contexts + [context]) == WindowEvents(audioPath, contexts) + [Transcribed(audioPath, Some(startTime), Some(timestamp))];
      contexts := contexts + [context];
      i := i + 1;
    }
  }

  /** `process_video` from the extraction on, with the WAV path given. */
  method ProcessAt<F, S, P>(
    w: World, videoPath: string, audioPath: string, caption: string,
    keyframes: seq<Keyframe<F>>, decodes: bool,
    recognize: (string, Engine, Recording) -> Recognition,
    generateSummary: (seq<KeyframeContext<F>>, string) -> S,
    generateScreenplay: (S, string) -> P)
    returns (r: Result<(S, P), Exception>)
    modifies w
    ensures var s := Process(old(w.files), videoPath, audioPath, caption, keyframes, decodes, recognize, generateSummary, generateScreenplay);
      r == s.result && w.files == s.files && w.trace == old(w.trace) + s.events
    ensures w.objects == old(w.objects) && w.browserOpen == old(w.browserOpen)
  {
    var extracted := w.ExtractAudio(videoPath, audioPath, decodes);
    if !extracted {
      return Err(ValueError("Unable to extract audio from " + videoPath));
    }
    var completeTranscript := Transcribe(audioPath, None, None, AudioServiceModel, recognize);
    w.Record(Transcribed(audioPath, None, None));
    ghost var head := [AudioExtracted(videoPath, audioPath), Transcribed(audioPath, None, None)];
    assert w.trace == old(w.trace) + head;
    if completeTranscript.Err? {
      return Err(completeTranscript.error);
    }
    var keyframeContexts := TranscribeWindows(w, audioPath, keyframes, recognize);
    // The extraction created the WAV file, so the removal succeeds.
    var removed := w.Remove(audioPath);
    assert removed.Ok?;
    w.Record(Requested(SummaryCall));
    var summary := generateSummary(keyframeContexts, caption);
    w.Record(Requested(ScreenplayCall));
    var screenplay := generateScreenplay(summary, completeTranscript.value);
    assert w.trace == old(w.trace) + (head + WindowEvents(audioPath, keyframeContexts)
                                      + [Removed(audioPath), Requested(SummaryCall), Requested(ScreenplayCall)]);
    return Ok((summary, screenplay));
  }
}
