/** `VideoService` of app/services/visual/visual_service.py: scene-change
    keyframe extraction with an optional duration cutoff, and the hook frame
    read at a fixed time. The capture is a `Frames.Video` value; each
    `cap.read()` yields the next element of `frames` until they run out. */
module VisualService {
  import opened Wrappers
  import opened Frames
  import Settings

  /** `_is_scene_change` with its default threshold. */
  predicate IsSceneChangeDefault<F>(meanDiff: (F, F) -> real, frame: F, prev: F)
  {
    IsSceneChange(meanDiff, frame, prev, Settings.MinSceneChangeThreshold)
  }

  /** `max_frame`: `int(max_duration_seconds * fps)` when the duration is
      truthy (neither None nor 0.0), otherwise None. */
  function MaxFrame(maxDuration: Option<real>, fps: real): (r: Option<int>)
    ensures r.Some? <==> maxDuration.Some? && maxDuration.value != 0.0
    ensures r.Some? ==> r.value == Trunc(maxDuration.value * fps)
  {
    if maxDuration.Some? && maxDuration.value != 0.0 then Some(Trunc(maxDuration.value * fps)) else None
  }

  /** The cutoff test of the loop: `max_frame and frame_number >= max_frame`
      (a `max_frame` of 0 is falsy and stops nothing). */
  predicate CutoffReached(maxFrame: Option<int>, i: int)
  {
    maxFrame.Some? && maxFrame.value != 0 && i >= maxFrame.value
  }

  /** How many frames the loop examines: the first index at which the video
      has ended or the cutoff applies. */
  function Examined(n: nat, maxFrame: Option<int>): (m: nat)
    ensures m <= n
    ensures forall i :: 0 <= i < m ==> !CutoffReached(maxFrame, i)
    ensures m < n ==> CutoffReached(maxFrame, m)
  {
    if maxFrame.Some? && maxFrame.value != 0 then
      if maxFrame.value <= 0 then 0
      else if maxFrame.value < n then maxFrame.value
      else n
    else n
  }

  /** No frame at an index at or beyond a truthy `max_frame` is examined,
      and without a truthy `max_frame` every frame is. */
  lemma CutoffBound(n: nat, maxFrame: Option<int>)
    ensures maxFrame.Some? && maxFrame.value != 0 ==> Examined(n, maxFrame) <= if maxFrame.value < 0 then 0 else maxFrame.value
    ensures maxFrame.None? || maxFrame.value == 0 ==> Examined(n, maxFrame) == n
  {
    var m := Examined(n, maxFrame);
    if maxFrame.Some? && maxFrame.value != 0 && m > 0 {
      assert !CutoffReached(maxFrame, m - 1);
    }
  }

  /** What `extract_keyframes` yields. An unopenable video raises
      ValueError; a zero frame rate raises ZeroDivisionError at the first
      keyframe; otherwise the result is the scan result over the frames the
      loop examined. */
  function KeyframesOf<F>(videoPath: string, video: Video<F>, maxDuration: Option<real>, meanDiff: (F, F) -> real): Result<seq<Keyframe<F>>, Exception>
  {
    if !video.isOpened then Err(ValueError("Could not open video file: " + videoPath))
    else
      var m := Examined(|video.frames|, MaxFrame(maxDuration, video.fps));
      if m > 0 && video.fps == 0.0 then Err(ZeroDivisionError)
      else Ok(ScanResult(video.frames, m, video.fps, meanDiff, Settings.MinSceneChangeThreshold))
  }

  /** The outcome classes of `extract_keyframes` and the shape of a success:
      empty exactly when no frame was examined, and otherwise frame 0 first,
      increasing frame numbers, timestamps `frame_number / fps`, the closing
      tuple `(m, m/fps, frame m-1)`, and no kept frame at or beyond a truthy
      `max_frame`. */
  lemma KeyframesOfFacts<F>(videoPath: string, video: Video<F>, maxDuration: Option<real>, meanDiff: (F, F) -> real)
    ensures var r := KeyframesOf(videoPath, video, maxDuration, meanDiff);
      var fps := video.fps;
      var maxFrame := MaxFrame(maxDuration, fps);
      var m := Examined(|video.frames|, maxFrame);
      && (r.Err? && r.error.ValueError? <==> !video.isOpened)
      && (r == Err(ZeroDivisionError) <==> video.isOpened && m > 0 && fps == 0.0)
      && (r.Ok? ==> (r.value == [] <==> m == 0))
      && (r.Ok? && m > 0 ==>
            var ks := r.value;
            && ks[0] == Keyframe(0, 0.0, video.frames[0])
            && ks[|ks| - 1] == Keyframe(m, m as real / fps, video.frames[m - 1])
            && (forall i, j :: 0 <= i < j < |ks| ==> ks[i].frameNumber < ks[j].frameNumber)
            && (forall i :: 0 <= i < |ks| ==> ks[i].timestamp == ks[i].frameNumber as real / fps)
            && (forall i :: 0 <= i < |ks| - 1 ==> !CutoffReached(maxFrame, ks[i].frameNumber)))
  {
    var r := KeyframesOf(videoPath, video, maxDuration, meanDiff);
    var m := Examined(|video.frames|, MaxFrame(maxDuration, video.fps));
    if r.Ok? && m > 0 {
      ScanResultFacts(video.frames, m, video.fps, meanDiff, Settings.MinSceneChangeThreshold);
      var ks := r.value;
      forall i | 0 <= i < |ks| - 1 ensures !CutoffReached(MaxFrame(maxDuration, video.fps), ks[i].frameNumber) {
        assert ks[i].frameNumber < ks[|ks| - 1].frameNumber;
      }
    }
  }

  /** The limit of `cutoff` seconds stops the scan at a frame `>= 1`. */
  predicate LimitCoversFrame(cutoff: real, fps: real)
  {
    var maxFrame := MaxFrame(Some(cutoff), fps);
    maxFrame.Some? && maxFrame.value >= 1
  }

  /** At a positive frame rate the limit covers a frame exactly when
      `cutoff * fps >= 1`. */
  lemma LimitCoversFrameIff(cutoff: real, fps: real)
    requires fps > 0.0
    ensures LimitCoversFrame(cutoff, fps) <==> cutoff * fps >= 1.0
  {
    var x := cutoff * fps;
    if x >= 1.0 {
      assert cutoff != 0.0;
      var r := MaxFrame(Some(cutoff), fps);
      assert r.Some? && r.value == Trunc(x);
    }
  }

  /** A frame the cutoff test lets through lies strictly before the
      cutoff time, when the limit covers at least one frame. */
  lemma BeforeCutoff(frameNumber: int, fps: real, cutoff: real)
    requires fps > 0.0 && LimitCoversFrame(cutoff, fps)
    requires !CutoffReached(MaxFrame(Some(cutoff), fps), frameNumber)
    ensures frameNumber as real / fps < cutoff
  {
    var limit := MaxFrame(Some(cutoff), fps).value;
    assert frameNumber < limit;
    var n := frameNumber as real;
    var x := cutoff * fps;
    assert limit == Trunc(x);
    assert n < x;
    assert (n / fps) * fps == n;
  }

  /** Every keyframe but the closing tuple passed the cutoff test and is
      stamped with its frame number over the frame rate. */
  predicate ThroughCutoff<F>(kfs: seq<Keyframe<F>>, maxFrame: Option<int>, fps: real)
  {
    forall i :: 0 <= i < |kfs| - 1 ==>
      && !CutoffReached(maxFrame, kfs[i].frameNumber)
      && fps != 0.0
      && kfs[i].timestamp == kfs[i].frameNumber as real / fps
  }

  /** The keyframes of a successful scan pass `ThroughCutoff`. */
  lemma KeyframesOfCutoff<F>(videoPath: string, video: Video<F>, maxDuration: Option<real>, meanDiff: (F, F) -> real)
    ensures var r := KeyframesOf(videoPath, video, maxDuration, meanDiff);
      r.Ok? ==> ThroughCutoff(r.value, MaxFrame(maxDuration, video.fps), video.fps)
  {
    var r := KeyframesOf(videoPath, video, maxDuration, meanDiff);
    KeyframesOfFacts(videoPath, video, maxDuration, meanDiff);
    if r.Ok? && |r.value| > 1 {
      assert Examined(|video.frames|, MaxFrame(maxDuration, video.fps)) > 0;
    }
  }

  /** With a duration limit that covers at least one frame, every keyframe
      but the closing tuple lies strictly before the limit. */
  lemma KeyframesBeforeCutoff<F>(videoPath: string, video: Video<F>, cutoff: real, meanDiff: (F, F) -> real)
    requires video.isOpened && video.fps > 0.0 && LimitCoversFrame(cutoff, video.fps)
    ensures var r := KeyframesOf(videoPath, video, Some(cutoff), meanDiff);
      r.Ok? && forall i :: 0 <= i < |r.value| - 1 ==> r.value[i].timestamp < cutoff
  {
    KeyframesOfOk(videoPath, video, Some(cutoff), meanDiff);
    KeyframesOfCutoff(videoPath, video, Some(cutoff), meanDiff);
    AllBeforeCutoff(KeyframesOf(videoPath, video, Some(cutoff), meanDiff).value, video.fps, cutoff);
  }

  /** An opened video with a non-zero frame rate is scanned. */
  lemma KeyframesOfOk<F>(videoPath: string, video: Video<F>, maxDuration: Option<real>, meanDiff: (F, F) -> real)
    requires video.isOpened && video.fps != 0.0
    ensures KeyframesOf(videoPath, video, maxDuration, meanDiff).Ok?
  {
  }

  /** Keyframes that passed the cutoff test lie before the cutoff. */
  lemma AllBeforeCutoff<F>(kfs: seq<Keyframe<F>>, fps: real, cutoff: real)
    requires fps > 0.0 && LimitCoversFrame(cutoff, fps)
    requires ThroughCutoff(kfs, MaxFrame(Some(cutoff), fps), fps)
    ensures forall i :: 0 <= i < |kfs| - 1 ==> kfs[i].timestamp < cutoff
  {
    forall i | 0 <= i < |kfs| - 1 ensures kfs[i].timestamp < cutoff {
      BeforeCutoff(kfs[i].frameNumber, fps, cutoff);
    }
  }

  /** The variables of the scan loop when it ends: the keyframes so far,
      the last frame read, the set of kept frame numbers and the number of
      frames examined. */
  datatype ScanState<F> = ScanState(keyframes: seq<Keyframe<F>>, prev: Option<F>, extracted: set<int>, frameNumber: nat)

  /** The selection among the first `n` frames at the video's own interval
      and the default threshold. */
  function SelectedIn<F>(video: Video<F>, n: nat, meanDiff: (F, F) -> real): seq<nat>
    requires n <= |video.frames|
  {
    Selected(video.frames, n, MinFrameInterval(video.fps), meanDiff, Settings.MinSceneChangeThreshold)
  }

  /** What the scan loop knows after examining `n` frames. */
  ghost predicate ScanInv<F>(video: Video<F>, meanDiff: (F, F) -> real, n: nat, keyframes: seq<Keyframe<F>>,
                             prev: Option<F>, extracted: set<int>, sinceLast: int)
  {
    && n <= |video.frames|
    && (n == 0 ==> keyframes == [] && prev.None?)
    && (n > 0 ==>
          && video.fps != 0.0
          && keyframes == KeyframesAt(video.frames, SelectedIn(video, n, meanDiff), video.fps)
          && prev == Some(video.frames[n - 1])
          && sinceLast == n - Last(SelectedIn(video, n, meanDiff)))
    && (forall j :: j in extracted ==> 0 <= j < n)
  }

  /** The loop step that keeps frame `n`. */
  lemma ScanInvKeep<F>(video: Video<F>, meanDiff: (F, F) -> real, n: nat, keyframes: seq<Keyframe<F>>,
                       prev: Option<F>, extracted: set<int>, sinceLast: int)
    requires ScanInv(video, meanDiff, n, keyframes, prev, extracted, sinceLast)
    requires n < |video.frames| && video.fps != 0.0
    requires prev.None? || (sinceLast >= MinFrameInterval(video.fps) && IsSceneChangeDefault(meanDiff, video.frames[n], prev.value))
    ensures ScanInv(video, meanDiff, n + 1, keyframes + [Keyframe(n, n as real / video.fps, video.frames[n])],
                    Some(video.frames[n]), extracted + {n}, 1)
  {
    ScanStepKeep(video.frames, n, video.fps, MinFrameInterval(video.fps), meanDiff, Settings.MinSceneChangeThreshold);
  }

  /** The loop step that passes over frame `n`. */
  lemma ScanInvSkip<F>(video: Video<F>, meanDiff: (F, F) -> real, n: nat, keyframes: seq<Keyframe<F>>,
                       prev: Option<F>, extracted: set<int>, sinceLast: int)
    requires ScanInv(video, meanDiff, n, keyframes, prev, extracted, sinceLast)
    requires n < |video.frames|
    requires !(prev.None? || (sinceLast >= MinFrameInterval(video.fps) && IsSceneChangeDefault(meanDiff, video.frames[n], prev.value)))
    ensures ScanInv(video, meanDiff, n + 1, keyframes, Some(video.frames[n]), extracted, sinceLast + 1)
  {
    ScanStepSkip(video.frames, n, MinFrameInterval(video.fps), meanDiff, Settings.MinSceneChangeThreshold);
  }

  /** After `n > 0` frames the closing tuple for the last frame read, which
      was not kept yet, completes the scan's result. */
  lemma ScanInvClose<F>(video: Video<F>, meanDiff: (F, F) -> real, n: nat, keyframes: seq<Keyframe<F>>,
                        prev: Option<F>, extracted: set<int>, sinceLast: int)
    requires ScanInv(video, meanDiff, n, keyframes, prev, extracted, sinceLast) && n > 0
    ensures video.fps != 0.0 && prev.Some? && n !in extracted
    ensures keyframes + [Keyframe(n, n as real / video.fps, prev.value)]
              == ScanResult(video.frames, n, video.fps, meanDiff, Settings.MinSceneChangeThreshold)
  {
  }

  /** Below `Examined`, a frame that is read and not cut off leaves more to examine. */
  lemma ExaminedContinues(n: nat, maxFrame: Option<int>, i: nat)
    requires i <= Examined(n, maxFrame) && i < n && !CutoffReached(maxFrame, i)
    ensures i < Examined(n, maxFrame)
  {
  }

  /** The loop stops exactly at `Examined`. */
  lemma ExaminedStops(n: nat, maxFrame: Option<int>, i: nat)
    requires i <= Examined(n, maxFrame) && (i >= n || CutoffReached(maxFrame, i))
    ensures i == Examined(n, maxFrame)
  {
  }

  /** The read loop of `extract_keyframes`: it stops when the video ends or
      the cutoff applies, having examined `Examined` frames and kept the
      selected ones, or raises ZeroDivisionError when it keeps a frame while
      the frame rate is 0. */
  method ScanLoop<F>(video: Video<F>, maxFrame: Option<int>, meanDiff: (F, F) -> real)
    returns (r: Result<ScanState<F>, Exception>)
    ensures var m := Examined(|video.frames|, maxFrame);
      r.Err? <==> m > 0 && video.fps == 0.0
    ensures r.Err? ==> r.error == ZeroDivisionError
    ensures var m := Examined(|video.frames|, maxFrame);
      r.Ok? ==>
        && r.value.frameNumber == m
        && (m == 0 ==> r.value.keyframes == [] && r.value.prev.None?)
        && (m > 0 ==> r.value.keyframes == KeyframesAt(video.frames, SelectedIn(video, m, meanDiff), video.fps))
        && (m > 0 ==> r.value.prev == Some(video.frames[m - 1]))
        && m !in r.value.extracted
  {
    var minFrameInterval := MinFrameInterval(video.fps);
    var keyframes: seq<Keyframe<F>> := [];
    var prev: Option<F> := None;
    var extracted: set<int> := {};
    var frameNumber := 0;
    var sinceLast := 0;
    ghost var m := Examined(|video.frames|, maxFrame);
    // `cap.read()` fails once the frames run out; the cutoff is checked after it.
    while frameNumber < |video.frames| && !CutoffReached(maxFrame, frameNumber)
      invariant frameNumber <= m
      invariant ScanInv(video, meanDiff, frameNumber, keyframes, prev, extracted, sinceLast)
      decreases |video.frames| - frameNumber
    {
      ExaminedContinues(|video.frames|, maxFrame, frameNumber);
      var frame := video.frames[frameNumber];
      if prev.None? || (sinceLast >= minFrameInterval && IsSceneChangeDefault(meanDiff, frame, prev.value)) {
        if video.fps == 0.0 {
          return Err(ZeroDivisionError);
        }
        ScanInvKeep(video, meanDiff, frameNumber, keyframes, prev, extracted, sinceLast);
        keyframes := keyframes + [Keyframe(frameNumber, frameNumber as real / video.fps, frame)];
        extracted := extracted + {frameNumber};
        sinceLast := 0;
      } else {
        ScanInvSkip(video, meanDiff, frameNumber, keyframes, prev, extracted, sinceLast);
      }
      prev := Some(frame);
      frameNumber := frameNumber + 1;
      sinceLast := sinceLast + 1;
    }
    ExaminedStops(|video.frames|, maxFrame, frameNumber);
    return Ok(ScanState(keyframes, prev, extracted, frameNumber));
  }

  /** `extract_keyframes`: the read loop, then the closing tuple for the
      last frame read unless that frame was kept. */
  method ExtractKeyframes<F>(videoPath: string, video: Video<F>, maxDuration: Option<real>, meanDiff: (F, F) -> real)
    returns (r: Result<seq<Keyframe<F>>, Exception>)
    ensures r == KeyframesOf(videoPath, video, maxDuration, meanDiff)
  {
    if !video.isOpened {
      return Err(ValueError("Could not open video file: " + videoPath));
    }
    var maxFrame := MaxFrame(maxDuration, video.fps);
    var scan := ScanLoop(video, maxFrame, meanDiff);
    if scan.Err? {
      return Err(scan.error);
    }
    var keyframes := scan.value.keyframes;
    var frameNumber := scan.value.frameNumber;
    if scan.value.prev.Some? && frameNumber !in scan.value.extracted {
      keyframes := keyframes + [Keyframe(frameNumber, frameNumber as real / video.fps, scan.value.prev.value)];
    }
    return Ok(keyframes);
  }

  /** The frame `extract_hook_frame` returns: reading continues while fewer
      than `fps * frame_time` frames have been read, so `Ceil(fps * frame_time)`
      frames are read when that is positive and none otherwise. */
  function HookFrameOf<F>(video: Video<F>, frameTime: int): (r: Option<F>)
    ensures var need := Ceil(video.fps * frameTime as real);
      r.Some? <==> video.isOpened && 0 < need <= |video.frames|
    ensures var need := Ceil(video.fps * frameTime as real);
      r.Some? ==> r.value == video.frames[need - 1]
  {
    var need := Ceil(video.fps * frameTime as real);
    if video.isOpened && 0 < need <= |video.frames| then Some(video.frames[need - 1]) else None
  }

  /** `HookFrameOf` spelled out, for the loop below. */
  lemma HookFrameOfUnfold<F>(video: Video<F>, frameTime: int)
    ensures var need := Ceil(video.fps * frameTime as real);
      HookFrameOf(video, frameTime) == if video.isOpened && 0 < need <= |video.frames| then Some(video.frames[need - 1]) else None
  {
  }

  /** `extract_hook_frame`, as the read loop of the source. */
  method ExtractHookFrame<F>(video: Video<F>, frameTime: int) returns (r: Option<F>)
    ensures r == HookFrameOf(video, frameTime)
  {
    if !video.isOpened {
      return None;
    }
    var frameNumber := video.fps * frameTime as real;
    ghost var need := Ceil(frameNumber);
    ghost var spec := HookFrameOf(video, frameTime);
    HookFrameOfUnfold(video, frameTime);
    var frame: Option<F> := None;
    var currentFrame := 0;
    while currentFrame as real < frameNumber
      invariant 0 <= currentFrame <= |video.frames|
      invariant currentFrame > 0 ==> currentFrame <= need
      invariant frame == if currentFrame == 0 then None else Some(video.frames[currentFrame - 1])
      decreases |video.frames| - currentFrame
    {
      if currentFrame >= |video.frames| {
        assert need > |video.frames|;
        return None;
      }
      frame := Some(video.frames[currentFrame]);
      currentFrame := currentFrame + 1;
    }
    assert currentFrame == if need > 0 then need else 0;
    return frame;
  }
}
