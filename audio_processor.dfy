/** The two entry points of `AudioProcessorService`
    (app/services/audio/audio_processor_service.py) that chain the others:
    `extract_audio` (write the video's audio track, then `isolate_speech`)
    and `extract_audio_features` (the four analyses of the isolated file).
    Decoding the video and writing its audio with moviepy is the flag
    `audioWritten`; what the DSP libraries measure in a file is the function
    `measure`. */
module AudioProcessor {
  import opened Wrappers
  import opened Strings
  import opened AudioMetrics
  import AudioPaths
  import SpeechIsolation
  import Stats
  import FlagRuns

  /** The service's default recogniser (`audio_model='google'`). */
  const DefaultModel: string := "google"

  /** `extract_audio`: the path `isolate_speech` returns for the raw track,
      or None when any step raises (the audio cannot be written, or the
      masking inside `isolate_speech` fails). */
  function ExtractAudio<A>(tempDir: string, videoPath: string, audioWritten: bool,
                           sig: SpeechIsolation.Signals, std: seq<real> -> real, smooth: seq<real> -> seq<real>,
                           load: seq<real> -> Result<SpeechIsolation.Sound<A>, Exception>,
                           ops: SpeechIsolation.SegmentOps<A>): Option<string>
  {
    if !audioWritten then None
    else
      var isolated := SpeechIsolation.IsolationOf(tempDir, AudioPaths.RawAudioPath(tempDir, videoPath), sig, std, smooth, load, ops);
      if isolated.Err? then None else Some(isolated.value.path)
  }

  /** What `extract_audio` produces: a path exactly when the audio track was
      written and the mask could be applied, and that path is
      `<temp_dir>/<stem>_speech_only.wav`, a file directly in `temp_dir`. */
  lemma ExtractAudioPath<A>(tempDir: string, videoPath: string, audioWritten: bool,
                            sig: SpeechIsolation.Signals, std: seq<real> -> real, smooth: seq<real> -> seq<real>,
                            load: seq<real> -> Result<SpeechIsolation.Sound<A>, Exception>,
                            ops: SpeechIsolation.SegmentOps<A>)
    ensures var r := ExtractAudio(tempDir, videoPath, audioWritten, sig, std, smooth, load, ops);
      && (r.Some? <==> audioWritten && SpeechIsolation.Masked(sig, std, smooth).Ok?)
      && (r.Some? ==> r.value == PathJoin(tempDir, AudioPaths.Stem(videoPath) + "_speech_only" + ".wav")
                      && Basename(r.value) == AudioPaths.Stem(videoPath) + "_speech_only" + ".wav")
  {
    var raw := AudioPaths.RawAudioPath(tempDir, videoPath);
    SpeechIsolation.IsolationFacts(tempDir, raw, sig, std, smooth, load, ops);
    SpeechOnlyName(tempDir, videoPath);
  }

  /** The speech-only file of a video lies directly in `temp_dir`. */
  lemma SpeechOnlyName(tempDir: string, videoPath: string)
    ensures var p := AudioPaths.SpeechOnlyPath(tempDir, AudioPaths.RawAudioPath(tempDir, videoPath));
      && p == PathJoin(tempDir, AudioPaths.Stem(videoPath) + "_speech_only" + ".wav")
      && Basename(p) == AudioPaths.Stem(videoPath) + "_speech_only" + ".wav"
  {
    AudioPaths.RawThenSpeechOnly(tempDir, videoPath);
    NameInDir(tempDir, AudioPaths.Stem(videoPath));
  }

  /** A speech-only name made from a stem with no '/' is the base name of
      that name joined to any directory. */
  lemma NameInDir(tempDir: string, stem: string)
    requires '/' !in stem
    ensures Basename(PathJoin(tempDir, stem + "_speech_only" + ".wav")) == stem + "_speech_only" + ".wav"
  {
    var a := stem + "_speech_only";
    assert '/' !in "_speech_only";
    AudioPaths.NoSlashConcat(stem, "_speech_only");
    assert '/' !in ".wav";
    AudioPaths.NoSlashConcat(a, ".wav");
    AudioPaths.BasenameOfJoin(tempDir, a + ".wav");
  }

  /** What the analysis libraries measure in one audio file: Praat's pitch
      track, the RMS energy of each STFT frame (the same frames for
      `analyze_volume` and `analyze_speech_rate`), the onset count, the
      duration, the frame hop in seconds, and Praat's harmonicity and point
      process (None when the call raises). */
  datatype Measurements<P> = Measurements(
    frequencies: seq<real>, rms: seq<real>, onsetCount: nat, duration: real, hopSeconds: real,
    hnr: Option<real>, pointProcess: Option<P>)

  /** The `audio_features` dictionary. */
  datatype AudioFeatures = AudioFeatures(pitch: PitchMetrics, volume: VolumeMetrics,
                                         speechRate: SpeechRateMetrics, voiceQuality: VoiceQuality)

  /** A Python string argument is falsy when it is None or empty. */
  predicate Falsy(p: Option<string>)
  {
    p.None? || p.value == ""
  }

  /** `extract_audio_features` on an audio path: None for a falsy path,
      otherwise the four analyses of the file, in order. Only
      `analyze_volume` can raise here (`np.max` of no frames); the exception
      propagates. */
  method ExtractAudioFeatures<P>(audioPath: Option<string>, measure: string -> Measurements<P>, std: seq<real> -> real,
                                 jitterOf: P -> Option<real>, shimmerOf: P -> Option<real>)
    returns (r: Result<Option<AudioFeatures>, Exception>)
    ensures Falsy(audioPath) ==> r == Ok(None)
    ensures !Falsy(audioPath) ==>
      var m := measure(audioPath.value);
      && (r.Err? <==> m.rms == [])
      && (r.Err? ==> r.error.ValueError?)
      && (r.Ok? ==>
            && r.value.Some?
            && r.value.value.pitch == AnalyzePitch(m.frequencies, std)
            && r.value.value.volume == AnalyzeVolume(m.rms, std).value
            && IsSpeechRateOf(r.value.value.speechRate, m.onsetCount, m.duration, m.rms, m.hopSeconds)
            && r.value.value.voiceQuality == AnalyzeVoiceQuality(m.hnr, m.pointProcess, jitterOf, shimmerOf))
  {
    if Falsy(audioPath) {
      return Ok(None);
    }
    var m := measure(audioPath.value);
    var pitchFeatures := AnalyzePitch(m.frequencies, std);
    var volumeFeatures := AnalyzeVolume(m.rms, std);
    if volumeFeatures.Err? {
      return Err(volumeFeatures.error);
    }
    var speechFeatures := AnalyzeSpeechRate(m.onsetCount, m.duration, m.rms, m.hopSeconds);
    var voiceQuality := AnalyzeVoiceQuality(m.hnr, m.pointProcess, jitterOf, shimmerOf);
    r := Ok(Some(AudioFeatures(pitchFeatures, volumeFeatures.value, speechFeatures, voiceQuality)));
  }

  /** `extract_audio` never yields an empty path, so the falsy guard of
      `extract_audio_features` rejects exactly the failed extractions. */
  lemma ExtractedPathIsTruthy<A>(tempDir: string, videoPath: string, audioWritten: bool,
                                 sig: SpeechIsolation.Signals, std: seq<real> -> real, smooth: seq<real> -> seq<real>,
                                 load: seq<real> -> Result<SpeechIsolation.Sound<A>, Exception>,
                                 ops: SpeechIsolation.SegmentOps<A>)
    ensures var r := ExtractAudio(tempDir, videoPath, audioWritten, sig, std, smooth, load, ops);
      Falsy(r) <==> r.None?
  {
    var r := ExtractAudio(tempDir, videoPath, audioWritten, sig, std, smooth, load, ops);
    ExtractAudioPath(tempDir, videoPath, audioWritten, sig, std, smooth, load, ops);
    if r.Some? {
      assert EndsWith(r.value, AudioPaths.Stem(videoPath) + "_speech_only" + ".wav");
    }
  }

  /** The silence ratio of `analyze_volume` and the pauses of
      `analyze_speech_rate` see the same silent frames: the ratio is zero
      exactly when there is no pause. */
  lemma SilenceRatioZeroIffNoPause(rms: seq<real>, std: seq<real> -> real)
    requires rms != []
    ensures AnalyzeVolume(rms, std).value.silenceRatio == 0.0 <==> FlagRuns.Runs(IsSilence(rms)) == []
  {
    SilenceRatioBounds(rms, std);
    FlagRuns.NoRunsIffAllFalse(IsSilence(rms));
    var s := IsSilence(rms);
    assert forall i :: 0 <= i < |rms| ==> (s[i] <==> rms[i] < 0.1 * Stats.Mean(rms));
  }
}
