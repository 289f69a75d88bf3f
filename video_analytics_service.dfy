/** `VideoAnalyticsService` of app/services/video_analytics_service.py: the
    variant of the keyframe loop without a duration cutoff, and
    `process_video`, which pairs every keyframe with the transcript of its
    window. The transcript of a time window (`get_transcript`) and the two
    LLM calls are function parameters. */
module VideoAnalyticsService {
  import opened Wrappers
  import opened Frames
  import opened Windows
  import Settings
  import VisualService

  /** What `extract_keyframes` yields. Unlike the visual service's loop, a
      video with no frames is an error: the closing append evaluates
      `0 / fps` (ZeroDivisionError when the rate is 0) and then calls `copy()`
      on the still-None previous frame (AttributeError). */
  function KeyframesOf<F>(videoPath: string, video: Video<F>, meanDiff: (F, F) -> real): Result<seq<Keyframe<F>>, Exception>
  {
    if !video.isOpened then Err(ValueError("Could not open video file: " + videoPath))
    else if video.fps == 0.0 then Err(ZeroDivisionError)
    else if |video.frames| == 0 then Err(AttributeError)
    else Ok(ScanResult(video.frames, |video.frames|, video.fps, meanDiff, Settings.MinSceneChangeThreshold))
  }

  /** Outcome classes of `extract_keyframes`, and the shape of a success:
      frame 0 first, the tuple `(n, n/fps, last frame)` last. */
  lemma KeyframesOfFacts<F>(videoPath: string, video: Video<F>, meanDiff: (F, F) -> real)
    ensures var r := KeyframesOf(videoPath, video, meanDiff);
      var n := |video.frames|;
      && (r.Err? && r.error.ValueError? <==> !video.isOpened)
      && (r == Err(ZeroDivisionError) <==> video.isOpened && video.fps == 0.0)
      && (r == Err(AttributeError) <==> video.isOpened && video.fps != 0.0 && n == 0)
      && (r.Ok? <==> video.isOpened && video.fps != 0.0 && n > 0)
      && (r.Ok? ==>
            && |r.value| >= 2
            && r.value[0] == Keyframe(0, 0.0, video.frames[0])
            && r.value[|r.value| - 1] == Keyframe(n, n as real / video.fps, video.frames[n - 1]))
  {
    if video.isOpened && video.fps != 0.0 && |video.frames| > 0 {
      ScanResultFacts(video.frames, |video.frames|, video.fps, meanDiff, Settings.MinSceneChangeThreshold);
    }
  }

  /** The two copies of the keyframe loop agree whenever this one succeeds,
      taking the visual service's loop without a cutoff; on a video with no
      frames the visual service's loop returns an empty list instead. */
  lemma AgreesWithVisualService<F>(videoPath: string, video: Video<F>, meanDiff: (F, F) -> real)
    ensures KeyframesOf(videoPath, video, meanDiff).Ok? ==>
              VisualService.KeyframesOf(videoPath, video, None, meanDiff) == KeyframesOf(videoPath, video, meanDiff)
    ensures video.isOpened && video.fps != 0.0 && |video.frames| == 0 ==>
              VisualService.KeyframesOf(videoPath, video, None, meanDiff) == Ok([])
              && KeyframesOf(videoPath, video, meanDiff) == Err(AttributeError)
  {
    var n := |video.frames|;
    assert VisualService.Examined(n, VisualService.MaxFrame(None, video.fps)) == n;
  }

  /** `extract_keyframes`, as the frame-by-frame loop of the source. */
  method ExtractKeyframes<F>(videoPath: string, video: Video<F>, meanDiff: (F, F) -> real)
    returns (r: Result<seq<Keyframe<F>>, Exception>)
    ensures r == KeyframesOf(videoPath, video, meanDiff)
  {
    if !video.isOpened {
      return Err(ValueError("Could not open video file: " + videoPath));
    }
    var fps := video.fps;
    var minFrameInterval := MinFrameInterval(fps);
    var keyframes: seq<Keyframe<F>> := [];
    var prev: Option<F> := None;
    var sinceLast := 0;
    var frameNumber := 0;
    var extracted: set<int> := {};

    // `cap.read()` fails once the frames run out, which ends the loop.
    while frameNumber < |video.frames|
      invariant VisualService.ScanInv(video, meanDiff, frameNumber, keyframes, prev, extracted, sinceLast)
      decreases |video.frames| - frameNumber
    {
      var frame := video.frames[frameNumber];
      if prev.None? || (sinceLast >= minFrameInterval && VisualService.IsSceneChangeDefault(meanDiff, frame, prev.value)) {
        if fps == 0.0 {
          return Err(ZeroDivisionError);
        }
        VisualService.ScanInvKeep(video, meanDiff, frameNumber, keyframes, prev, extracted, sinceLast);
        keyframes := keyframes + [Keyframe(frameNumber, frameNumber as real / fps, frame)];
        sinceLast := 0;
        extracted := extracted + {frameNumber};
      } else {
        VisualService.ScanInvSkip(video, meanDiff, frameNumber, keyframes, prev, extracted, sinceLast);
      }
      prev := Some(frame);
      frameNumber := frameNumber + 1;
      sinceLast := sinceLast + 1;
    }
    if frameNumber > 0 {
      VisualService.ScanInvClose(video, meanDiff, frameNumber, keyframes, prev, extracted, sinceLast);
    }
    if frameNumber !in extracted {
      if fps == 0.0 {
        return Err(ZeroDivisionError);
      }
      if prev.None? {
        return Err(AttributeError);
      }
      keyframes := keyframes + [Keyframe(frameNumber, frameNumber as real / fps, prev.value)];
    }
    assert keyframes == ScanResult(video.frames, frameNumber, fps, meanDiff, Settings.MinSceneChangeThreshold);
    return Ok(keyframes);
  }

  /** The loop of `process_video` that pairs keyframe `i` with the
      transcript from the previous keyframe's timestamp (0 for the first) to
      its own. */
  method KeyframeContexts<F>(keyframes: seq<Keyframe<F>>, getTranscript: (real, real) -> string)
    returns (keyframeContexts: seq<KeyframeContext<F>>)
    ensures keyframeContexts == Contexts(keyframes, Always(getTranscript))
  {
    keyframeContexts := [];
    var i := 0;
    while i < |keyframes|
      invariant 0 <= i <= |keyframes|
      invariant |keyframeContexts| == i
      invariant forall j :: 0 <= j < i ==> keyframeContexts[j] == ContextAt(keyframes, j, Always(getTranscript))
    {
      var timestamp := keyframes[i].timestamp;
      var startTime := if i == 0 then 0.0 else keyframes[i - 1].timestamp;
      var audioTranscript := getTranscript(startTime, timestamp);
      var context := KeyframeContext(i + 1, timestamp, keyframes[i].image, Some(audioTranscript), startTime, timestamp);
      assert context == ContextAt(keyframes, i, Always(getTranscript));
      keyframeContexts := keyframeContexts + [context];
      i := i + 1;
    }
  }

  /** `process_video`: the keyframes, the transcript of the whole video, one
      context per keyframe with the transcript of its window, then the summary
      of the contexts and the screenplay of the summary and full transcript.
      A failure of the keyframe extraction propagates. */
  method ProcessVideo<F, S, P>(
    videoPath: string, video: Video<F>, caption: string, meanDiff: (F, F) -> real,
    getTranscript: (real, real) -> string,
    generateSummary: (seq<KeyframeContext<F>>, string) -> S,
    generateScreenplay: (S, string) -> P)
    returns (r: Result<(S, P), Exception>)
    ensures KeyframesOf(videoPath, video, meanDiff).Err? ==> r == Err(KeyframesOf(videoPath, video, meanDiff).error)
    ensures KeyframesOf(videoPath, video, meanDiff).Ok? ==>
      var kfs := KeyframesOf(videoPath, video, meanDiff).value;
      var summary := generateSummary(Contexts(kfs, Always(getTranscript)), caption);
      r == Ok((summary, generateScreenplay(summary, getTranscript(0.0, video.frameCount as real / video.fps))))
  {
    var extractedKeyframes := ExtractKeyframes(videoPath, video, meanDiff);
    if extractedKeyframes.Err? {
      return Err(extractedKeyframes.error);
    }
    var keyframes := extractedKeyframes.value;
    // The frame rate is non-zero here, so `get_video_duration_cv2` succeeds.
    var videoDuration := VideoDuration(video).value;
    var completeTranscript := getTranscript(0.0, videoDuration);

    var keyframeContexts := KeyframeContexts(keyframes, getTranscript);
    var summary := generateSummary(keyframeContexts, caption);
    var screenplay := generateScreenplay(summary, completeTranscript);
    return Ok((summary, screenplay));
  }
}
