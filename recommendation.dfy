/** `RecommendationService` of app/services/recommendation_service.py:
    `process_video`, which takes its keyframes from the video's duration, and
    `suggest_edits`, which asks the language model to compare one video with
    several better-performing ones. `extract_keyframes` of app/utils/video.py
    is not part of this model: it is the parameter `extractKeyframes`. */
module Recommendation {
  import opened Wrappers
  import opened Frames
  import opened Windows
  import opened Effects
  import opened Transcription
  import opened JsonData
  import AudioPaths
  import AudioWindows

  /** `process_video`: `get_video_duration_cv2` first, whose ZeroDivisionError
      propagates before anything else happens; then the keyframes up to that
      duration, and the shared extraction, transcription, cleanup and
      requests of `AudioWindows.Process` on the WAV path
      `<tempDir>/<video stem>.wav`. */
  method ProcessVideo<F, S, P>(
    w: World, tempDir: string, videoPath: string, video: Video<F>, caption: string,
    extractKeyframes: (string, real) -> seq<Keyframe<F>>, decodes: bool,
    recognize: (string, Engine, Recording) -> Recognition,
    generateSummary: (seq<KeyframeContext<F>>, string) -> S,
    generateScreenplay: (S, string) -> P)
    returns (r: Result<(S, P), Exception>)
    modifies w
    ensures VideoDuration(video).Err? ==>
              r == Err(ZeroDivisionError) && w.files == old(w.files) && w.trace == old(w.trace)
    ensures VideoDuration(video).Ok? ==>
              var s := AudioWindows.ProcessIn(old(w.files), tempDir, videoPath, caption,
                         extractKeyframes(videoPath, VideoDuration(video).value), decodes,
                         recognize, generateSummary, generateScreenplay);
              r == s.result && w.files == s.files && w.trace == old(w.trace) + s.events
    ensures w.objects == old(w.objects) && w.browserOpen == old(w.browserOpen)
  {
    var videoDuration := VideoDuration(video);
    if videoDuration.Err? {
      return Err(videoDuration.error);
    }
    var keyframes := extractKeyframes(videoPath, videoDuration.value);
    var audioPath := AudioPaths.WavPath(tempDir, videoPath);
    r := AudioWindows.ProcessAt(w, videoPath, audioPath, caption, keyframes, decodes,
                                recognize, generateSummary, generateScreenplay);
  }

  /** The comparison request of `suggest_edits`: an object with exactly the
      keys "high_performing", the dumps of the high-performing videos in
      their order, and "low_performing", the dump of the low-performing one.
      `model_dump` is the parameter `dump`. */
  function EditsRequest<V>(highs: seq<V>, low: V, dump: V -> Json): (j: Json)
    ensures j.JObject? && j.fields.Keys == {"high_performing", "low_performing"}
    ensures j.fields["low_performing"] == dump(low)
    ensures var h := j.fields["high_performing"];
      h.JArray? && |h.items| == |highs| && forall i :: 0 <= i < |highs| ==> h.items[i] == dump(highs[i])
  {
    JObject(map["high_performing" := JArray(seq(|highs|, i requires 0 <= i < |highs| => dump(highs[i]))),
                "low_performing" := dump(low)])
  }

  /** When `model_dump` tells videos apart, so does the request: it
      determines the high-performing videos, in order, and the low-performing
      one. */
  lemma EditsRequestDeterminesVideos<V>(highs: seq<V>, low: V, highs': seq<V>, low': V, dump: V -> Json)
    requires forall a: V, b: V :: dump(a) == dump(b) ==> a == b
    requires EditsRequest(highs, low, dump) == EditsRequest(highs', low', dump)
    ensures highs == highs' && low == low'
  {
    var h := EditsRequest(highs, low, dump).fields["high_performing"];
    var h' := EditsRequest(highs', low', dump).fields["high_performing"];
    assert h == h';
    assert |highs| == |highs'|;
    forall i | 0 <= i < |highs| ensures highs[i] == highs'[i] {
      assert dump(highs[i]) == h.items[i] == h'.items[i] == dump(highs'[i]);
    }
    assert dump(low) == dump(low');
  }
}
