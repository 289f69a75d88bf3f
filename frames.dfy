/** Decoded video as the extractors see it, and the specification of which
    frames the scene-change loops keep.

    A video is what `cv2.VideoCapture` would deliver: whether it opened, the
    frame rate it reports, the frame count it reports, and the frames that
    successive `read()` calls return. Frames are an opaque type `F`; the mean
    absolute grayscale difference between two frames (`cvtColor`, `absdiff`,
    `mean`) is the function parameter `meanDiff`. */
module Frames {
  import opened Wrappers
  import Settings

  datatype Video<F> = Video(isOpened: bool, fps: real, frameCount: int, frames: seq<F>)

  /** One extracted keyframe: `(frame_number, timestamp, frame)`. */
  datatype Keyframe<F> = Keyframe(frameNumber: int, timestamp: real, image: F)

  /** Python's `int(x)` on a float: truncation toward zero. */
  function Trunc(x: real): (n: int)
    ensures x >= 0.0 ==> n as real <= x < n as real + 1.0
    ensures x < 0.0 ==> n as real - 1.0 < x <= n as real
  {
    if x >= 0.0 then x.Floor else -((-x).Floor)
  }

  /** Smallest integer not below `x`. */
  function Ceil(x: real): (n: int)
    ensures n as real - 1.0 < x <= n as real
  {
    -((-x).Floor)
  }

  /** `min_frame_interval = int(fps * MIN_INTERVAL_SECONDS)`. */
  function MinFrameInterval(fps: real): int
  {
    Trunc(fps * Settings.MinIntervalSeconds)
  }

  /** `get_video_duration`: 0.0 for an unopenable video, otherwise the
      reported frame count (truncated to an integer) over the frame rate,
      which raises ZeroDivisionError when the frame rate is 0. */
  function VideoDuration<F>(video: Video<F>): (r: Result<real, Exception>)
    ensures !video.isOpened ==> r == Ok(0.0)
    ensures video.isOpened && video.fps == 0.0 ==> r == Err(ZeroDivisionError)
    ensures video.isOpened && video.fps != 0.0 ==> r.Ok? && r.value * video.fps == video.frameCount as real
  {
    if !video.isOpened then Ok(0.0)
    else if video.fps == 0.0 then Err(ZeroDivisionError)
    else Ok(video.frameCount as real / video.fps)
  }

  /** `_is_scene_change`: the mean difference strictly exceeds the threshold. */
  predicate IsSceneChange<F>(meanDiff: (F, F) -> real, frame: F, prev: F, threshold: real)
  {
    meanDiff(frame, prev) > threshold
  }

  function Last(s: seq<nat>): nat
    requires s != []
  {
    s[|s| - 1]
  }

  /** The indices, among the first `n` frames, that the scan loop keeps: frame 0,
      then every frame at least `interval` frames after the previous kept one
      that differs from the frame just before it by more than `threshold`. */
  function Selected<F>(frames: seq<F>, n: nat, interval: int, meanDiff: (F, F) -> real, threshold: real): (s: seq<nat>)
    requires n <= |frames|
    ensures n == 0 <==> s == []
    ensures n > 0 ==> s[0] == 0 && Last(s) < n
    ensures forall i :: 0 <= i < |s| ==> s[i] < n
  {
    if n == 0 then []
    else if n == 1 then [0]
    else
      var s := Selected(frames, n - 1, interval, meanDiff, threshold);
      var k := n - 1;
      if k - Last(s) >= interval && IsSceneChange(meanDiff, frames[k], frames[k - 1], threshold) then s + [k]
      else s
  }

  /** The keyframe tuples for the kept indices, in order. */
  function KeyframesAt<F>(frames: seq<F>, sel: seq<nat>, fps: real): (ks: seq<Keyframe<F>>)
    requires fps != 0.0
    requires forall i :: 0 <= i < |sel| ==> sel[i] < |frames|
    ensures |ks| == |sel|
    ensures forall i :: 0 <= i < |sel| ==>
              ks[i] == Keyframe(sel[i], sel[i] as real / fps, frames[sel[i]])
  {
    if sel == [] then []
    else KeyframesAt(frames, sel[..|sel| - 1], fps) + [Keyframe(Last(sel), Last(sel) as real / fps, frames[Last(sel)])]
  }

  /** Appending a kept index appends its tuple. */
  lemma KeyframesAtSnoc<F>(frames: seq<F>, sel: seq<nat>, k: nat, fps: real)
    requires fps != 0.0
    requires forall i :: 0 <= i < |sel| ==> sel[i] < |frames|
    requires k < |frames|
    ensures KeyframesAt(frames, sel + [k], fps) == KeyframesAt(frames, sel, fps) + [Keyframe(k, k as real / fps, frames[k])]
  {
    assert (sel + [k])[..|sel|] == sel;
  }

  /** A scan step that keeps frame `n`: the selection and its tuples grow by it. */
  lemma ScanStepKeep<F>(frames: seq<F>, n: nat, fps: real, interval: int, meanDiff: (F, F) -> real, threshold: real)
    requires n < |frames| && fps != 0.0
    requires n == 0 || (n - Last(Selected(frames, n, interval, meanDiff, threshold)) >= interval
                        && IsSceneChange(meanDiff, frames[n], frames[n - 1], threshold))
    ensures Selected(frames, n + 1, interval, meanDiff, threshold) == Selected(frames, n, interval, meanDiff, threshold) + [n]
    ensures KeyframesAt(frames, Selected(frames, n + 1, interval, meanDiff, threshold), fps)
         == KeyframesAt(frames, Selected(frames, n, interval, meanDiff, threshold), fps) + [Keyframe(n, n as real / fps, frames[n])]
  {
    KeyframesAtSnoc(frames, Selected(frames, n, interval, meanDiff, threshold), n, fps);
  }

  /** A scan step that passes over frame `n`: the selection is unchanged. */
  lemma ScanStepSkip<F>(frames: seq<F>, n: nat, interval: int, meanDiff: (F, F) -> real, threshold: real)
    requires 0 < n < |frames|
    requires !(n - Last(Selected(frames, n, interval, meanDiff, threshold)) >= interval
               && IsSceneChange(meanDiff, frames[n], frames[n - 1], threshold))
    ensures Selected(frames, n + 1, interval, meanDiff, threshold) == Selected(frames, n, interval, meanDiff, threshold)
  {
  }

  /** The result of a scan that examined the first `m` frames: the kept
      frames plus the appended tuple `(m, m/fps, frame m-1)`; nothing when no
      frame was examined; a division by zero when there are frames and the
      reported frame rate is 0. */
  function ScanResult<F>(frames: seq<F>, m: nat, fps: real, meanDiff: (F, F) -> real, threshold: real): seq<Keyframe<F>>
    requires m <= |frames| && (m > 0 ==> fps != 0.0)
  {
    if m == 0 then []
    else
      var sel := Selected(frames, m, MinFrameInterval(fps), meanDiff, threshold);
      KeyframesAt(frames, sel, fps) + [Keyframe(m, m as real / fps, frames[m - 1])]
  }

  // ------------------------------------------------------------------ facts

  predicate StrictlyIncreasing(s: seq<nat>)
  {
    forall i, j :: 0 <= i < j < |s| ==> s[i] < s[j]
  }

  /** Consecutive kept indices are at least `max(1, interval)` apart. */
  predicate Spaced(s: seq<nat>, interval: int)
  {
    forall i :: 0 < i < |s| ==> s[i] - s[i - 1] >= interval && s[i - 1] < s[i]
  }

  /** Every kept index after the first is a scene change against the frame
      just before it. */
  predicate SceneChangesAt<F>(frames: seq<F>, s: seq<nat>, meanDiff: (F, F) -> real, threshold: real)
  {
    forall i :: 0 < i < |s| ==> 1 <= s[i] < |frames| && IsSceneChange(meanDiff, frames[s[i]], frames[s[i] - 1], threshold)
  }

  /** Appending an index that is past the last one by at least `interval`
      and is a scene change keeps the three properties. */
  lemma SnocKeepsFacts<F>(frames: seq<F>, t: seq<nat>, k: nat, interval: int, meanDiff: (F, F) -> real, threshold: real)
    requires t != [] && Last(t) < k < |frames|
    requires k - Last(t) >= interval && IsSceneChange(meanDiff, frames[k], frames[k - 1], threshold)
    requires StrictlyIncreasing(t) && Spaced(t, interval) && SceneChangesAt(frames, t, meanDiff, threshold)
    ensures StrictlyIncreasing(t + [k]) && Spaced(t + [k], interval) && SceneChangesAt(frames, t + [k], meanDiff, threshold)
  {
    var s := t + [k];
    forall i, j | 0 <= i < j < |s| ensures s[i] < s[j] {
      assert s[i] == t[i];
      if j < |t| { assert s[j] == t[j]; }
    }
    forall i | 0 < i < |s|
      ensures s[i] - s[i - 1] >= interval && s[i - 1] < s[i]
      ensures 1 <= s[i] < |frames| && IsSceneChange(meanDiff, frames[s[i]], frames[s[i] - 1], threshold)
    {
      assert s[i - 1] == t[i - 1];
      if i < |t| { assert s[i] == t[i]; }
    }
  }

  /** Kept indices increase, are at least `max(1, interval)` apart, and every
      index after the first is a scene change against the preceding frame. */
  lemma {:induction false} SelectedFacts<F>(frames: seq<F>, n: nat, interval: int, meanDiff: (F, F) -> real, threshold: real)
    requires n <= |frames|
    ensures StrictlyIncreasing(Selected(frames, n, interval, meanDiff, threshold))
    ensures Spaced(Selected(frames, n, interval, meanDiff, threshold), interval)
    ensures SceneChangesAt(frames, Selected(frames, n, interval, meanDiff, threshold), meanDiff, threshold)
  {
    if n > 1 {
      var t := Selected(frames, n - 1, interval, meanDiff, threshold);
      SelectedFacts(frames, n - 1, interval, meanDiff, threshold);
      var k := n - 1;
      if k - Last(t) >= interval && IsSceneChange(meanDiff, frames[k], frames[k - 1], threshold) {
        SnocKeepsFacts(frames, t, k, interval, meanDiff, threshold);
      }
    }
  }

  /** Kept indices never change once chosen: the selection among `m` frames is
      a prefix of the selection among `n >= m` frames. */
  lemma {:induction false} SelectedPrefix<F>(frames: seq<F>, m: nat, n: nat, interval: int, meanDiff: (F, F) -> real, threshold: real)
    requires m <= n <= |frames|
    ensures var s := Selected(frames, n, interval, meanDiff, threshold);
      var t := Selected(frames, m, interval, meanDiff, threshold);
      |t| <= |s| && t == s[..|t|]
      && (forall i :: |t| <= i < |s| ==> s[i] >= m)
    decreases n - m
  {
    if m < n {
      SelectedPrefix(frames, m, n - 1, interval, meanDiff, threshold);
    }
  }

  /** Which later frame is kept: frame `k >= 1` is kept exactly when at least
      `interval` frames separate it from the last frame kept before it and it
      is a scene change against frame `k - 1`. */
  lemma SelectedCharacterization<F>(frames: seq<F>, n: nat, k: nat, interval: int, meanDiff: (F, F) -> real, threshold: real)
    requires 0 < k < n <= |frames|
    ensures var before := Selected(frames, k, interval, meanDiff, threshold);
      k in Selected(frames, n, interval, meanDiff, threshold) <==>
        (k - Last(before) >= interval && IsSceneChange(meanDiff, frames[k], frames[k - 1], threshold))
  {
    var before := Selected(frames, k, interval, meanDiff, threshold);
    var at := Selected(frames, k + 1, interval, meanDiff, threshold);
    var s := Selected(frames, n, interval, meanDiff, threshold);
    SelectedPrefix(frames, k + 1, n, interval, meanDiff, threshold);
    SelectedPrefix(frames, k, k + 1, interval, meanDiff, threshold);
    SelectedFacts(frames, n, interval, meanDiff, threshold);
    if k in s {
      var j :| 0 <= j < |s| && s[j] == k;
      if j >= |at| {
        assert false;
      }
      assert at[j] == k;
      assert k !in before;
      assert at != before;
    } else {
      assert k !in at;
    }
  }

  /** The scan result: frame 0 opens it, frame numbers strictly increase,
      each timestamp is its frame number over the frame rate, and the last
      tuple is `(m, m/fps, frame m-1)`. */
  lemma ScanResultFacts<F>(frames: seq<F>, m: nat, fps: real, meanDiff: (F, F) -> real, threshold: real)
    requires 0 < m <= |frames| && fps != 0.0
    ensures var r := ScanResult(frames, m, fps, meanDiff, threshold);
      && |r| >= 2
      && r[0] == Keyframe(0, 0.0, frames[0])
      && r[|r| - 1] == Keyframe(m, m as real / fps, frames[m - 1])
      && (forall i, j :: 0 <= i < j < |r| ==> r[i].frameNumber < r[j].frameNumber)
      && (forall i :: 0 <= i < |r| ==> r[i].timestamp == r[i].frameNumber as real / fps)
  {
    var sel := Selected(frames, m, MinFrameInterval(fps), meanDiff, threshold);
    SelectedFacts(frames, m, MinFrameInterval(fps), meanDiff, threshold);
    var ks := KeyframesAt(frames, sel, fps);
    var r := ks + [Keyframe(m, m as real / fps, frames[m - 1])];
    assert r[0] == ks[0];
    forall i, j | 0 <= i < j < |r| ensures r[i].frameNumber < r[j].frameNumber {
      assert r[i] == ks[i];
      if j < |ks| { assert r[j] == ks[j]; }
    }
  }
}
