/** The metric guards of `AudioProcessorService`
    (app/services/audio/audio_processor_service.py): `analyze_pitch`,
    `analyze_volume`, `analyze_speech_rate` and `analyze_voice_quality`.
    The signal processing (Praat pitch tracking, STFT and RMS energy, onset
    detection, harmonicity, jitter, shimmer, `np.std`) is not modelled: its
    outputs are parameters, and the model states what the code computes
    from them. */
module AudioMetrics {
  import opened Wrappers
  import opened Stats
  import opened FlagRuns

  // ------------------------------------------------------------------ pitch

  /** `pitch_values[pitch_values > 0]`: the voiced frames, in order. */
  function Voiced(values: seq<real>): (v: seq<real>)
    ensures |v| <= |values|
    ensures forall i :: 0 <= i < |v| ==> v[i] > 0.0
    ensures v == [] <==> forall i :: 0 <= i < |values| ==> values[i] <= 0.0
    ensures forall x :: multiset(v)[x] == if x > 0.0 then multiset(values)[x] else 0
  {
    if values == [] then []
    else
      var init, x := values[..|values| - 1], values[|values| - 1];
      var p := Voiced(init);
      assert values == init + [x];
      FilterSnocFacts(init, x, p);
      if x > 0.0 then p + [x] else p
  }

  /** The step of `Voiced`: if `p` is the filter of `init`, then keeping `x`
      exactly when it is positive gives the filter of `init + [x]`. */
  lemma FilterSnocFacts(init: seq<real>, x: real, p: seq<real>)
    requires |p| <= |init| && forall i :: 0 <= i < |p| ==> p[i] > 0.0
    requires p == [] <==> forall i :: 0 <= i < |init| ==> init[i] <= 0.0
    requires forall y :: multiset(p)[y] == if y > 0.0 then multiset(init)[y] else 0
    ensures var v, values := if x > 0.0 then p + [x] else p, init + [x];
      && |v| <= |values|
      && (forall i :: 0 <= i < |v| ==> v[i] > 0.0)
      && (v == [] <==> forall i :: 0 <= i < |values| ==> values[i] <= 0.0)
      && forall y :: multiset(v)[y] == if y > 0.0 then multiset(values)[y] else 0
  {
    var values := init + [x];
    assert multiset(values) == multiset(init) + multiset{x};
    assert forall i :: 0 <= i < |init| ==> values[i] == init[i];
    assert values[|init|] == x;
  }

  /** The filter keeps the order of the frames: the voiced frames of two
      stretches are those of the first followed by those of the second. With
      a single frame kept iff it is positive, this fixes `Voiced` outright. */
  lemma {:induction false} VoicedConcat(a: seq<real>, b: seq<real>)
    ensures Voiced(a + b) == Voiced(a) + Voiced(b)
    decreases |b|
  {
    if b == [] {
      assert a + b == a;
    } else {
      var b', x := b[..|b| - 1], b[|b| - 1];
      assert b == b' + [x];
      VoicedConcat(a, b');
      VoicedConcatStep(a, b', x);
    }
  }

  /** The step of `VoicedConcat`: one more frame at the end of `b`. */
  lemma VoicedConcatStep(a: seq<real>, b: seq<real>, x: real)
    requires Voiced(a + b) == Voiced(a) + Voiced(b)
    ensures Voiced(a + (b + [x])) == Voiced(a) + Voiced(b + [x])
  {
    var tail := if x > 0.0 then [x] else [];
    AppendAssoc(a, b, [x]);
    VoicedSnoc(a + b, x);
    VoicedSnoc(b, x);
    AppendAssoc(Voiced(a), Voiced(b), tail);
  }

  lemma AppendAssoc(p: seq<real>, q: seq<real>, r: seq<real>)
    ensures (p + q) + r == p + (q + r)
  {
  }

  /** A frame appended at the end is kept iff it is positive. */
  lemma VoicedSnoc(s: seq<real>, x: real)
    ensures Voiced(s + [x]) == Voiced(s) + if x > 0.0 then [x] else []
  {
    assert (s + [x])[..|s|] == s;
  }

  /** A single frame is kept iff it is positive. */
  lemma VoicedSingle(x: real)
    ensures Voiced([x]) == if x > 0.0 then [x] else []
  {
    assert [x][..0] == [];
  }

  datatype PitchMetrics = PitchMetrics(
    meanPitch: real, minPitch: real, maxPitch: real,
    pitchRange: real, pitchStd: real, pitchVariability: real)

  const NoPitch: PitchMetrics := PitchMetrics(0.0, 0.0, 0.0, 0.0, 0.0, 0.0)

  /** `analyze_pitch` over the frequencies Praat reports (`std` is `np.std`).
      All six metrics are 0 exactly when no frame is voiced. Otherwise the
      minimum, mean and maximum of the voiced frequencies are positive and in
      that order, the range is their non-negative spread, and since the mean
      is positive the variability is always `std / mean`. */
  function AnalyzePitch(frequencies: seq<real>, std: seq<real> -> real): (m: PitchMetrics)
    ensures m == NoPitch <==> Voiced(frequencies) == []
    ensures Voiced(frequencies) != [] ==>
      var v := Voiced(frequencies);
      && m.minPitch == Min(v) && m.meanPitch == Mean(v) && m.maxPitch == Max(v)
      && 0.0 < m.minPitch <= m.meanPitch <= m.maxPitch
      && m.pitchRange == m.maxPitch - m.minPitch && m.pitchRange >= 0.0
      && m.pitchStd == std(v)
      && m.pitchVariability == m.pitchStd / m.meanPitch
  {
    var v := Voiced(frequencies);
    if v == [] then NoPitch
    else
      var meanPitch := Mean(v);
      var minPitch := Min(v);
      var maxPitch := Max(v);
      var pitchStd := std(v);
      MeanBetweenMinAndMax(v);
      PitchMetrics(meanPitch, minPitch, maxPitch, maxPitch - minPitch, pitchStd,
                   if meanPitch > 0.0 then pitchStd / meanPitch else 0.0)
  }

  // ----------------------------------------------------------------- volume

  datatype VolumeMetrics = VolumeMetrics(
    meanVolume: real, maxVolume: real, volumeStd: real,
    volumeDynamics: real, silenceRatio: real)

  /** `analyze_volume` over the RMS frames (`std` is `np.std`). `np.max` of
      no frames raises ValueError. */
  function AnalyzeVolume(rms: seq<real>, std: seq<real> -> real): (r: Result<VolumeMetrics, Exception>)
    ensures r.Err? <==> rms == []
  {
    if rms == [] then Err(ValueError("zero-size array to reduction operation maximum which has no identity"))
    else
      var meanVolume := Mean(rms);
      var volumeStd := std(rms);
      Ok(VolumeMetrics(meanVolume, Max(rms), volumeStd,
                       if meanVolume > 0.0 then volumeStd / meanVolume else 0.0,
                       CountBelow(rms, 0.1 * meanVolume) as real / |rms| as real))
  }

  /** The mean RMS never exceeds the maximum. */
  lemma VolumeMeanAtMostMax(rms: seq<real>, std: seq<real> -> real)
    requires rms != []
    ensures AnalyzeVolume(rms, std).value.meanVolume <= AnalyzeVolume(rms, std).value.maxVolume
  {
    MeanBetweenMinAndMax(rms);
  }

  /** The dynamics are the coefficient of variation `std / mean` when the
      mean is positive, and 0 otherwise. */
  lemma VolumeDynamicsGuard(rms: seq<real>, std: seq<real> -> real)
    requires rms != []
    ensures var m := AnalyzeVolume(rms, std).value;
      && (m.meanVolume > 0.0 ==> m.volumeDynamics * m.meanVolume == m.volumeStd)
      && (m.meanVolume <= 0.0 ==> m.volumeDynamics == 0.0)
  {
    DivTimes(std(rms), Mean(rms));
  }

  /** The silence ratio is a fraction: it lies in [0, 1], and it is 0 exactly
      when no frame is below a tenth of the mean. */
  lemma SilenceRatioBounds(rms: seq<real>, std: seq<real> -> real)
    requires rms != []
    ensures var m := AnalyzeVolume(rms, std).value;
      && 0.0 <= m.silenceRatio <= 1.0
      && (m.silenceRatio == 0.0 <==> forall i :: 0 <= i < |rms| ==> rms[i] >= 0.1 * m.meanVolume)
  {
    var count := CountBelow(rms, 0.1 * Mean(rms)) as real;
    var n := |rms| as real;
    DivBounds(count, n, 0.0, 1.0);
    DivTimes(count, n);
  }

  // ------------------------------------------------------------ speech rate

  /** `rms < 0.1 * np.mean(rms)`: which frames count as silent. */
  function IsSilence(rms: seq<real>): (s: seq<bool>)
    ensures |s| == |rms|
  {
    if rms == [] then [] else seq(|rms|, i requires 0 <= i < |rms| => rms[i] < 0.1 * Mean(rms))
  }

  /** The duration of each pause: its frame count times the frame hop in
      seconds (`librosa.frames_to_time(1, sr=sr, hop_length=512)`). */
  function PauseDurations(pauses: seq<Run>, hopSeconds: real): (d: seq<real>)
    ensures |d| == |pauses|
    ensures forall k :: 0 <= k < |pauses| ==> d[k] == Seconds(pauses[k].Length(), hopSeconds)
  {
    seq(|pauses|, k requires 0 <= k < |pauses| => Seconds(pauses[k].Length(), hopSeconds))
  }

  /** `frames * librosa.frames_to_time(1, ...)`. */
  function Seconds(frames: int, hopSeconds: real): real
  {
    frames as real * hopSeconds
  }

  lemma LengthsAppend(pauses: seq<Run>, run: Run, hopSeconds: real)
    ensures PauseDurations(pauses + [run], hopSeconds) == PauseDurations(pauses, hopSeconds) + [Seconds(run.Length(), hopSeconds)]
  {
    var a := PauseDurations(pauses + [run], hopSeconds);
    var b := PauseDurations(pauses, hopSeconds) + [Seconds(run.Length(), hopSeconds)];
    assert |a| == |b|;
    forall k | 0 <= k < |a| ensures a[k] == b[k] {
      if k < |pauses| { assert (pauses + [run])[k] == pauses[k]; }
    }
  }

  datatype SpeechRateMetrics = SpeechRateMetrics(speechRate: real, pauseFrequency: real, avgPauseDuration: real)

  /** The pause loop of `analyze_speech_rate`: the number of maximal runs of
      silent frames (`FlagRuns.RunsDecompose`), a run still open at the end
      included, and the duration of each, in order. */
  method CountPauses(isSilence: seq<bool>, hopSeconds: real) returns (pauseCount: nat, pauseDurations: seq<real>)
    ensures pauseCount == |Runs(isSilence)|
    ensures pauseDurations == PauseDurations(Runs(isSilence), hopSeconds)
  {
    pauseCount := 0;
    pauseDurations := [];
    var currentPause := 0;
    ghost var closed: seq<Run> := [];
    for i := 0 to |isSilence|
      invariant closed == Closed(isSilence, i)
      invariant currentPause == Trail(isSilence, i)
      invariant pauseCount == |closed|
      invariant pauseDurations == PauseDurations(closed, hopSeconds)
    {
      if isSilence[i] {
        currentPause := currentPause + 1;
      } else if currentPause > 0 {
        pauseCount := pauseCount + 1;
        var pauseDuration := Seconds(currentPause, hopSeconds);
        ghost var run := Run(i - currentPause, i);
        assert run.Length() == currentPause;
        LengthsAppend(closed, run, hopSeconds);
        pauseDurations := pauseDurations + [pauseDuration];
        closed := closed + [run];
        currentPause := 0;
      }
    }
    if currentPause > 0 {
      pauseCount := pauseCount + 1;
      var pauseDuration := Seconds(currentPause, hopSeconds);
      ghost var run := Run(|isSilence| - currentPause, |isSilence|);
      assert run.Length() == currentPause;
      LengthsAppend(closed, run, hopSeconds);
      pauseDurations := pauseDurations + [pauseDuration];
    }
  }

  /** The speech-rate metrics of the given onsets, duration and frame energies:
      onsets and pauses per second (both 0 when the duration is not positive)
      and the mean pause duration (0 when there is no pause). */
  predicate IsSpeechRateOf(m: SpeechRateMetrics, onsetCount: nat, duration: real, rms: seq<real>, hopSeconds: real)
  {
    var pauses := Runs(IsSilence(rms));
    && (duration > 0.0 ==> m.speechRate == onsetCount as real / duration
                           && m.pauseFrequency == |pauses| as real / duration)
    && (duration <= 0.0 ==> m.speechRate == 0.0 && m.pauseFrequency == 0.0)
    && (pauses == [] ==> m.avgPauseDuration == 0.0)
    && (pauses != [] ==> m.avgPauseDuration == Mean(PauseDurations(pauses, hopSeconds)))
  }

  /** `analyze_speech_rate`: onsets per second and pauses per second, both 0
      when the duration is not positive, and the mean pause duration, 0 when
      there is no pause. */
  method AnalyzeSpeechRate(onsetCount: nat, duration: real, rms: seq<real>, hopSeconds: real)
    returns (m: SpeechRateMetrics)
    ensures IsSpeechRateOf(m, onsetCount, duration, rms, hopSeconds)
  {
    var speechRate := if duration > 0.0 then onsetCount as real / duration else 0.0;
    var isSilence := IsSilence(rms);
    var pauseCount, pauseDurations := CountPauses(isSilence, hopSeconds);
    var avgPauseDuration := if pauseDurations != [] then Mean(pauseDurations) else 0.0;
    var pauseFrequency := if duration > 0.0 then pauseCount as real / duration else 0.0;
    return SpeechRateMetrics(speechRate, pauseFrequency, avgPauseDuration);
  }

  // ---------------------------------------------------------- voice quality

  datatype VoiceQuality = VoiceQuality(harmonicsToNoise: real, jitter: real, shimmer: real)

  /** `analyze_voice_quality`: each Praat measurement that raises becomes 0.0.
      Shimmer reuses the point process of the jitter step, so when building
      the point process fails, jitter and shimmer are both 0.0. */
  function AnalyzeVoiceQuality<P>(hnr: Option<real>, pointProcess: Option<P>, jitterOf: P -> Option<real>, shimmerOf: P -> Option<real>): (q: VoiceQuality)
    ensures hnr.None? ==> q.harmonicsToNoise == 0.0
    ensures hnr.Some? ==> q.harmonicsToNoise == hnr.value
    ensures pointProcess.None? ==> q.jitter == 0.0 && q.shimmer == 0.0
    ensures pointProcess.Some? ==>
      (if jitterOf(pointProcess.value).Some? then q.jitter == jitterOf(pointProcess.value).value else q.jitter == 0.0)
      && (if shimmerOf(pointProcess.value).Some? then q.shimmer == shimmerOf(pointProcess.value).value else q.shimmer == 0.0)
  {
    var harmonicsToNoise := if hnr.Some? then hnr.value else 0.0;
    var jitter := if pointProcess.Some? && jitterOf(pointProcess.value).Some? then jitterOf(pointProcess.value).value else 0.0;
    var shimmer := if pointProcess.Some? && shimmerOf(pointProcess.value).Some? then shimmerOf(pointProcess.value).value else 0.0;
    VoiceQuality(harmonicsToNoise, jitter, shimmer)
  }
}
