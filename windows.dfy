/** The keyframe-to-window assembly that four services repeat
    (`process_video` of app/services/video_analytics_service.py,
    app/services/recommendation_service.py and app/services/video_service.py,
    and `get_visual_features` of app/services/feature_extraction_service.py):
    context `i` covers the time from the previous keyframe's timestamp (0 for
    the first) to its own, and is numbered `i + 1`. */
module Windows {
  import opened Wrappers
  import opened Frames

  /** `KeyframeAudioContext` of app/models/video.py, and `KeyframeContext`,
      which the services build with the same six fields (its definition is not
      part of this model). */
  datatype KeyframeContext<F> = KeyframeContext(
    frameNumber: int,
    timestamp: real,
    image: F,
    audioTranscript: Option<string>,
    windowStart: real,
    windowEnd: real)

  /** `0 if i == 0 else keyframes[i - 1][1]`. */
  function WindowStart<F>(kfs: seq<Keyframe<F>>, i: nat): real
    requires i < |kfs|
  {
    if i == 0 then 0.0 else kfs[i - 1].timestamp
  }

  /** The context built for keyframe `i`, whose transcript is what
      `transcript` yields for its window. */
  function ContextAt<F>(kfs: seq<Keyframe<F>>, i: nat, transcript: (real, real) -> Option<string>): KeyframeContext<F>
    requires i < |kfs|
  {
    var start := WindowStart(kfs, i);
    KeyframeContext(i + 1, kfs[i].timestamp, kfs[i].image, transcript(start, kfs[i].timestamp), start, kfs[i].timestamp)
  }

  /** One context per keyframe, in keyframe order. The windows are
      contiguous: the first starts at 0 and each later one starts where the
      previous one ends, at the previous keyframe's timestamp. */
  function Contexts<F>(kfs: seq<Keyframe<F>>, transcript: (real, real) -> Option<string>): (cs: seq<KeyframeContext<F>>)
    ensures |cs| == |kfs|
    ensures forall i :: 0 <= i < |cs| ==>
              && cs[i].frameNumber == i + 1
              && cs[i].timestamp == kfs[i].timestamp == cs[i].windowEnd
              && cs[i].image == kfs[i].image
              && cs[i].audioTranscript == transcript(cs[i].windowStart, cs[i].windowEnd)
    ensures |cs| > 0 ==> cs[0].windowStart == 0.0
    ensures forall i :: 0 < i < |cs| ==> cs[i].windowStart == cs[i - 1].windowEnd
  {
    seq(|kfs|, i requires 0 <= i < |kfs| => ContextAt(kfs, i, transcript))
  }

  /** The transcript source of `get_visual_features`: no transcript at all. */
  function NoTranscript(start: real, end: real): Option<string>
  {
    None
  }

  /** A transcript source that always yields a string. */
  function Always(get: (real, real) -> string): (real, real) -> Option<string>
  {
    (start: real, end: real) => Some(get(start, end))
  }

  lemma DivStrictlyMonotone(a: real, b: real, c: real)
    requires a < b && c > 0.0
    ensures a / c < b / c
  {
    assert b / c - a / c == (b - a) / c;
  }

  /** For the keyframes of a scan with a positive frame rate, the first window
      is the empty interval `[0, 0]` (frame 0 is the first keyframe) and every
      later window has positive length. */
  lemma ScanWindows<F>(frames: seq<F>, m: nat, fps: real, meanDiff: (F, F) -> real, threshold: real, transcript: (real, real) -> Option<string>)
    requires 0 < m <= |frames| && fps > 0.0
    ensures var cs := Contexts(ScanResult(frames, m, fps, meanDiff, threshold), transcript);
      && cs[0].windowStart == cs[0].windowEnd == 0.0
      && forall i :: 0 < i < |cs| ==> cs[i].windowStart < cs[i].windowEnd
  {
    var kfs := ScanResult(frames, m, fps, meanDiff, threshold);
    ScanResultFacts(frames, m, fps, meanDiff, threshold);
    var cs := Contexts(kfs, transcript);
    forall i | 0 < i < |cs| ensures cs[i].windowStart < cs[i].windowEnd {
      DivStrictlyMonotone(kfs[i - 1].frameNumber as real, kfs[i].frameNumber as real, fps);
    }
  }
}
