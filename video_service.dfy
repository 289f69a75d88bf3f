/** `VideoService.process_video` of app/services/video_service.py: the
    keyframes of the whole video, then the shared extraction, transcription,
    cleanup and requests of `AudioWindows.Process`. `extract_keyframes` of
    app/utils/video.py is not part of this model: it is the parameter
    `extractKeyframes`. */
module VideoService {
  import opened Wrappers
  import opened Frames
  import opened Windows
  import opened Effects
  import opened Transcription
  import AudioPaths
  import AudioWindows

  /** `process_video`, on the WAV path `<tempDir>/<video stem>.wav`. */
  method ProcessVideo<F, S, P>(
    w: World, tempDir: string, videoPath: string, caption: string,
    extractKeyframes: string -> seq<Keyframe<F>>, decodes: bool,
    recognize: (string, Engine, Recording) -> Recognition,
    generateSummary: (seq<KeyframeContext<F>>, string) -> S,
    generateScreenplay: (S, string) -> P)
    returns (r: Result<(S, P), Exception>)
    modifies w
    ensures var s := AudioWindows.ProcessIn(old(w.files), tempDir, videoPath, caption, extractKeyframes(videoPath),
                                            decodes, recognize, generateSummary, generateScreenplay);
      r == s.result && w.files == s.files && w.trace == old(w.trace) + s.events
    ensures w.objects == old(w.objects) && w.browserOpen == old(w.browserOpen)
  {
    var keyframes := extractKeyframes(videoPath);
    var audioPath := AudioPaths.WavPath(tempDir, videoPath);
    r := AudioWindows.ProcessAt(w, videoPath, audioPath, caption, keyframes, decodes,
                                recognize, generateSummary, generateScreenplay);
  }
}
