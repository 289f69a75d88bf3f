/** `isolate_speech`, `split_on_silence` and `normalize_volume` of
    app/services/audio/audio_processor_service.py.

    The signal-processing library calls (band-pass filter, noise reduction,
    harmonic/percussive separation, short-time energy, the moving-average
    convolution, the standard deviation) are inputs: their results are
    parameters. What the code itself computes from them — the speech frames,
    the speech mask, the cap, the low-speech fallback, the chunk boundaries of
    the silence splitter, the volume normalisation and the recombination of
    the chunks — is modelled. */
module SpeechIsolation {
  import opened Wrappers
  import opened Stats
  import opened FlagRuns
  import Frames
  import AudioPaths

  const FrameLength: nat := 2048
  const HopLength: nat := 512

  /** A masked signal keeping less than this share of the original energy is
      replaced by the plainly denoised original. */
  const SpeechRatioFloor: real := 0.1

  /** The arguments `isolate_speech` passes to `split_on_silence`. */
  const SilenceThresholdDb: real := -40.0
  const MinSilenceLenMs: real := 300.0
  const KeepSilenceMs: real := 100.0

  /** The loudness `normalize_volume` aims at. */
  const TargetDbfs: real := -15.0

  // ---------------------------------------------------------------- voice activity

  /** `0.5 * mean(energy) + 0.1 * std(energy)`. */
  function SpeechThreshold(energy: seq<real>, std: seq<real> -> real): real
    requires energy != []
  {
    0.5 * Mean(energy) + 0.1 * std(energy)
  }

  /** `speech_frames = energy > threshold`. */
  function SpeechFrames(energy: seq<real>, std: seq<real> -> real): (f: seq<bool>)
    ensures |f| == |energy|
  {
    if energy == [] then []
    else seq(|energy|, i requires 0 <= i < |energy| => energy[i] > SpeechThreshold(energy, std))
  }

  /** When the spread of the energy is below five times its (positive) mean,
      the loudest frame is a speech frame, so the detector finds some speech. */
  lemma LoudestFrameIsSpeech(energy: seq<real>, std: seq<real> -> real)
    requires energy != [] && Mean(energy) > 0.0 && std(energy) < 5.0 * Mean(energy)
    ensures exists i :: 0 <= i < |energy| && SpeechFrames(energy, std)[i]
  {
    MeanBetweenMinAndMax(energy);
    var i :| 0 <= i < |energy| && energy[i] == Max(energy);
    assert 0.1 * std(energy) < 0.5 * Mean(energy);
    assert SpeechThreshold(energy, std) < Mean(energy) <= energy[i];
    assert SpeechFrames(energy, std)[i];
  }

  // ---------------------------------------------------------------- speech mask

  /** Sample `j` lies in the 2048-sample window of some speech frame; frame `i`
      starts at sample `512 * i`. */
  predicate Covered(speech: seq<bool>, j: int)
  {
    exists i :: 0 <= i < |speech| && speech[i] && i * HopLength <= j < i * HopLength + FrameLength
  }

  /** The speech mask over `n` samples: 1.0 on covered samples, 0.0 elsewhere. */
  function SpeechMask(speech: seq<bool>, n: nat): (m: seq<real>)
    ensures |m| == n
  {
    seq(n, j requires 0 <= j < n => if Covered(speech, j) then 1.0 else 0.0)
  }

  lemma CoveredStep(speech: seq<bool>, i: nat, j: int)
    requires i < |speech|
    ensures Covered(speech[..i + 1], j) <==>
      Covered(speech[..i], j) || (speech[i] && i * HopLength <= j < i * HopLength + FrameLength)
  {
    var p := speech[..i + 1];
    if Covered(p, j) {
      var k :| 0 <= k < |p| && p[k] && k * HopLength <= j < k * HopLength + FrameLength;
      if k < i {
        assert speech[..i][k] == p[k];
      }
    }
    if Covered(speech[..i], j) {
      var k :| 0 <= k < i && speech[..i][k] && k * HopLength <= j < k * HopLength + FrameLength;
      assert p[k] == speech[..i][k];
    }
    if speech[i] && i * HopLength <= j < i * HopLength + FrameLength {
      assert p[i] == speech[i];
    }
  }

  /** The mask loop: start from zeros and, for each speech frame `i`, set
      `mask[512 * i : min(512 * i + 2048, n)]` to 1.0. */
  method BuildSpeechMask(speech: seq<bool>, n: nat) returns (mask: seq<real>)
    ensures mask == SpeechMask(speech, n)
  {
    var a := new real[n](_ => 0.0);
    for i := 0 to |speech|
      invariant forall j :: 0 <= j < n ==> a[j] == if Covered(speech[..i], j) then 1.0 else 0.0
    {
      if speech[i] {
        var start := i * HopLength;
        var end := if start + FrameLength < n then start + FrameLength else n;
        var k := start;
        while k < end
          invariant start <= k && (start < end ==> k <= end)
          invariant forall j :: 0 <= j < n ==>
            a[j] == if Covered(speech[..i], j) || start <= j < k then 1.0 else 0.0
        {
          a[k] := 1.0;
          k := k + 1;
        }
      }
      forall j | 0 <= j < n {
        CoveredStep(speech, i, j);
      }
    }
    assert speech[..|speech|] == speech;
    mask := a[..];
  }

  /** The mask is 1.0 exactly on the samples some speech frame covers and 0.0
      on every other sample; in particular each speech frame's window, cut at
      the end of the signal, is all ones. */
  lemma SpeechMaskFacts(speech: seq<bool>, n: nat)
    ensures forall j :: 0 <= j < n ==> (SpeechMask(speech, n)[j] == 1.0 <==> Covered(speech, j))
    ensures forall j :: 0 <= j < n ==> (SpeechMask(speech, n)[j] == 0.0 <==> !Covered(speech, j))
    ensures forall i, j :: 0 <= i < |speech| && speech[i] && i * HopLength <= j < n && j < i * HopLength + FrameLength ==>
              SpeechMask(speech, n)[j] == 1.0
    ensures (forall i :: 0 <= i < |speech| ==> !speech[i]) ==> forall j :: 0 <= j < n ==> SpeechMask(speech, n)[j] == 0.0
  {
  }

  // ---------------------------------------------------------------- masking and fallback

  /** `np.minimum(x, 1.0)`. */
  function CapAtOne(s: seq<real>): (c: seq<real>)
    ensures |c| == |s|
    ensures forall i :: 0 <= i < |s| ==> c[i] <= 1.0 && c[i] <= s[i] && (c[i] == s[i] || c[i] == 1.0)
  {
    seq(|s|, i requires 0 <= i < |s| => if s[i] < 1.0 then s[i] else 1.0)
  }

  /** Element-wise product of two signals of the same length. */
  function Times(a: seq<real>, b: seq<real>): (p: seq<real>)
    requires |a| == |b|
    ensures |p| == |a|
  {
    seq(|a|, i requires 0 <= i < |a| => a[i] * b[i])
  }

  /** `speech_energy / original_energy if original_energy > 0 else 0`. */
  function SpeechRatio(speechEnergy: real, originalEnergy: real): real
  {
    if originalEnergy > 0.0 then speechEnergy / originalEnergy else 0.0
  }

  predicate LowSpeech(speech: seq<real>, original: seq<real>)
  {
    SpeechRatio(SumOfSquares(speech), SumOfSquares(original)) < SpeechRatioFloor
  }

  /** The fallback is taken exactly when the original is silent or the masked
      signal keeps less than a tenth of the original's energy. */
  lemma LowSpeechIff(speech: seq<real>, original: seq<real>)
    ensures LowSpeech(speech, original) <==>
      SumOfSquares(original) == 0.0 || SumOfSquares(speech) < SpeechRatioFloor * SumOfSquares(original)
  {
    var e := SumOfSquares(speech);
    var o := SumOfSquares(original);
    if o > 0.0 {
      DivTimes(e, o);
      RatioBelow(e, o, SpeechRatioFloor);
    }
  }

  lemma RatioBelow(e: real, o: real, t: real)
    requires o > 0.0 && (e / o) * o == e
    ensures e / o < t <==> e < t * o
  {
    if e / o < t {
      assert (e / o) * o < t * o;
    }
    if e < t * o {
      assert (e / o) * o < t * o;
    }
  }

  // ---------------------------------------------------------------- silence splitter

  /** What the splitter reads of a pydub `AudioSegment`: the number of samples
      of `get_array_of_samples()`, the frame rate, the loudness in dBFS (None
      for minus infinity, the loudness of digital silence), the RMS of the
      samples `[start, end)`, and slicing. */
  datatype Sound<A> = Sound(samples: nat, frameRate: int, dBFS: Option<real>,
                            rms: (nat, nat) -> real, slice: (int, int) -> A)

  /** A half-open sample range `[start, end)`. */
  datatype Span = Span(start: int, end: int)

  /** `max(int(frame_rate * (min_silence_len / 1000.0)), 1)`. */
  function ChunkSize(frameRate: int, minSilenceLen: real): (c: nat)
    ensures c >= 1
  {
    var c := Frames.Trunc(frameRate as real * (minSilenceLen / 1000.0));
    if c >= 1 then c else 1
  }

  /** `int(frame_rate * (keep_silence / 1000.0))`. */
  function KeepSamples(frameRate: int, keepSilence: real): int
  {
    Frames.Trunc(frameRate as real * (keepSilence / 1000.0))
  }

  /** `audio_segment.dBFS + silence_thresh`, None standing for minus infinity. */
  function ThresholdAmp(dBFS: Option<real>, silenceThresh: real): Option<real>
  {
    if dBFS.Some? then Some(dBFS.value + silenceThresh) else None
  }

  /** `range(from, len, cs)`: the first sample of every chunk. */
  function ChunkStarts(from: nat, len: nat, cs: nat): (s: seq<nat>)
    requires cs >= 1
    ensures s == [] <==> from >= len
    ensures s != [] ==> s[0] == from && s[|s| - 1] < len <= s[|s| - 1] + cs
    ensures forall k :: 0 <= k < |s| ==> from <= s[k] < len
    decreases len - from
  {
    if from >= len then [] else [from] + ChunkStarts(from + cs, len, cs)
  }

  /** Consecutive chunks start `chunk_size` samples apart. */
  lemma {:induction false} ChunkStartsStep(from: nat, len: nat, cs: nat, k: nat)
    requires cs >= 1 && k + 1 < |ChunkStarts(from, len, cs)|
    ensures ChunkStarts(from, len, cs)[k + 1] == ChunkStarts(from, len, cs)[k] + cs
    decreases len - from
  {
    if k > 0 {
      ChunkStartsStep(from + cs, len, cs, k - 1);
    }
  }

  /** Chunk `k` starts at sample `k * chunk_size`. */
  lemma {:induction false} ChunkStartsAreMultiples(from: nat, len: nat, cs: nat)
    requires cs >= 1
    ensures forall k :: 0 <= k < |ChunkStarts(from, len, cs)| ==> ChunkStarts(from, len, cs)[k] == from + k * cs
    decreases len - from
  {
    if from < len {
      var s := ChunkStarts(from, len, cs);
      var t := ChunkStarts(from + cs, len, cs);
      ChunkStartsAreMultiples(from + cs, len, cs);
      forall k | 0 < k < |s| ensures s[k] == from + k * cs {
        assert s[k] == t[k - 1];
        assert (k - 1) * cs + cs == k * cs;
      }
    }
  }

  /** `min(i + chunk_size, segment_len)`. */
  function ChunkEnd(i: int, cs: nat, len: nat): int
  {
    if i + cs < len then i + cs else len
  }

  /** `rms < silence_thresh_amp` for the chunk starting at `i`. */
  predicate IsSilentChunk<A>(sound: Sound<A>, threshAmp: Option<real>, i: nat, cs: nat)
  {
    threshAmp.Some? && sound.rms(i, ChunkEnd(i, cs, sound.samples)) < threshAmp.value
  }

  /** One flag per chunk: whether it is not silent. */
  function NonSilent<A>(sound: Sound<A>, threshAmp: Option<real>, starts: seq<nat>, cs: nat): (f: seq<bool>)
    ensures |f| == |starts|
  {
    seq(|starts|, k requires 0 <= k < |starts| => !IsSilentChunk(sound, threshAmp, starts[k], cs))
  }

  /** The sample at which chunk `k` starts, or the end of the segment. */
  function Bound(starts: seq<nat>, k: nat, len: nat): int
  {
    if k < |starts| then starts[k] else len
  }

  /** The sample range of each run of chunks. */
  function RangesOf(runs: seq<Run>, starts: seq<nat>, len: nat): (r: seq<Span>)
    ensures |r| == |runs|
  {
    seq(|runs|, q requires 0 <= q < |runs| => Span(Bound(starts, runs[q].start, len), Bound(starts, runs[q].end, len)))
  }

  lemma RangesOfSnoc(runs: seq<Run>, run: Run, starts: seq<nat>, len: nat)
    ensures RangesOf(runs + [run], starts, len) ==
      RangesOf(runs, starts, len) + [Span(Bound(starts, run.start, len), Bound(starts, run.end, len))]
  {
    var a := RangesOf(runs + [run], starts, len);
    var b := RangesOf(runs, starts, len) + [Span(Bound(starts, run.start, len), Bound(starts, run.end, len))];
    forall q | 0 <= q < |a| ensures a[q] == b[q] {
      if q < |runs| { assert (runs + [run])[q] == runs[q]; }
    }
  }

  /** `(max(0, start - keep), min(segment_len, end + keep))`. */
  function Pad(sp: Span, keep: int, len: nat): Span
  {
    Span(if sp.start - keep > 0 then sp.start - keep else 0,
         if len < sp.end + keep then len else sp.end + keep)
  }

  /** The chunk flags of a segment under the given parameters. */
  function SplitFlags<A>(sound: Sound<A>, minSilenceLen: real, silenceThresh: real): seq<bool>
  {
    var cs := ChunkSize(sound.frameRate, minSilenceLen);
    NonSilent(sound, ThresholdAmp(sound.dBFS, silenceThresh), ChunkStarts(0, sound.samples, cs), cs)
  }

  /** `not_silence_ranges`: the sample range of every maximal run of
      non-silent chunks, the last one reaching the end of the segment. */
  function NotSilenceRanges<A>(sound: Sound<A>, minSilenceLen: real, silenceThresh: real): seq<Span>
  {
    var cs := ChunkSize(sound.frameRate, minSilenceLen);
    RangesOf(Runs(SplitFlags(sound, minSilenceLen, silenceThresh)), ChunkStarts(0, sound.samples, cs), sound.samples)
  }

  /** The ranges `split_on_silence` cuts out: every non-silent range widened
      by `keep_silence` milliseconds on both sides, within the segment. */
  function SplitSpans<A>(sound: Sound<A>, minSilenceLen: real, silenceThresh: real, keepSilence: real): (r: seq<Span>)
  {
    PadAll(NotSilenceRanges(sound, minSilenceLen, silenceThresh), KeepSamples(sound.frameRate, keepSilence), sound.samples)
  }

  /** Every range widened by `keep` samples on both sides, within `[0, len]`. */
  function PadAll(ranges: seq<Span>, keep: int, len: nat): (r: seq<Span>)
    ensures |r| == |ranges|
  {
    seq(|ranges|, q requires 0 <= q < |ranges| => Pad(ranges[q], keep, len))
  }

  /** Widened ranges stay within `[0, len]` and, for a non-negative `keep`,
      contain the ranges they widen. */
  lemma PadAllWithin(ranges: seq<Span>, keep: int, len: nat)
    requires forall q :: 0 <= q < |ranges| ==> 0 <= ranges[q].start && ranges[q].end <= len
    ensures var r := PadAll(ranges, keep, len);
      && (forall q :: 0 <= q < |r| ==> 0 <= r[q].start && r[q].end <= len)
      && (keep >= 0 ==> forall q :: 0 <= q < |r| ==> r[q].start <= ranges[q].start && ranges[q].end <= r[q].end)
  {
  }

  /** Chunk starts `cs` apart that end with the last chunk of the segment:
      the next start follows `cs` later, and exists exactly when that is
      still inside the segment. */
  lemma StartsNext(starts: seq<nat>, len: nat, cs: nat, k: nat)
    requires starts != [] ==> starts[|starts| - 1] < len <= starts[|starts| - 1] + cs
    requires forall k, l :: 0 <= k && l == k + 1 && l < |starts| ==> starts[l] == starts[k] + cs
    requires k < |starts|
    ensures k + 1 < |starts| <==> starts[k] + cs < len
    ensures k + 1 < |starts| ==> starts[k + 1] == starts[k] + cs
  {
    if k + 1 < |starts| {
      assert starts[k + 1] == starts[k] + cs;
      StartsBelowLast(starts, cs, k + 1);
    }
  }

  /** Spaced starts do not exceed the last one. */
  lemma {:induction false} StartsBelowLast(starts: seq<nat>, cs: nat, k: nat)
    requires forall k, l :: 0 <= k && l == k + 1 && l < |starts| ==> starts[l] == starts[k] + cs
    requires k < |starts|
    ensures starts[k] <= starts[|starts| - 1]
    decreases |starts| - k
  {
    if k + 1 < |starts| {
      assert starts[k + 1] == starts[k] + cs;
      StartsBelowLast(starts, cs, k + 1);
    }
  }

  /** Chunk starts `0, cs, 2*cs, ...` below `len`, whose last chunk reaches
      the end of the segment. */
  ghost predicate ChunkGrid(starts: seq<nat>, len: nat, cs: nat)
  {
    && cs >= 1
    && (starts == [] <==> len == 0)
    && (starts != [] ==> starts[0] == 0 && starts[|starts| - 1] < len <= starts[|starts| - 1] + cs)
    && (forall k, l :: 0 <= k && l == k + 1 && l < |starts| ==> starts[l] == starts[k] + cs)
    && (forall k :: 0 <= k < |starts| ==> starts[k] < len)
  }

  /** What the chunk loop knows after `k` chunks: `i` is the next chunk's
      first sample, `silent` says whether the scan is outside a run, `start`
      is the open run's first sample and the recorded ranges are those of the
      runs closed so far. */
  ghost predicate ScanChunksInv(flags: seq<bool>, starts: seq<nat>, len: nat, k: nat, i: int,
                                silent: bool, start: int, ranges: seq<Span>)
  {
    && |flags| == |starts| && k <= |starts|
    && (k < |starts| <==> i < len)
    && (k < |starts| ==> i == starts[k])
    && (silent <==> Trail(flags, k) == 0)
    && (!silent ==> start == starts[k - Trail(flags, k)])
    && ranges == RangesOf(Closed(flags, k), starts, len)
  }

  /** One pass of the chunk loop: a silent chunk closes an open run, a
      non-silent chunk opens one when the scan was silent. */
  lemma ScanChunksStep(flags: seq<bool>, starts: seq<nat>, len: nat, cs: nat, k: nat, i: int,
                       silent: bool, start: int, ranges: seq<Span>, isSilence: bool)
    requires ChunkGrid(starts, len, cs) && ScanChunksInv(flags, starts, len, k, i, silent, start, ranges)
    requires i < len && isSilence == !flags[k]
    ensures ScanChunksInv(flags, starts, len, k + 1, i + cs, isSilence,
                          if !isSilence && silent then i else start,
                          if isSilence && !silent then ranges + [Span(start, i)] else ranges)
  {
    ScanStep(flags, k);
    StartsNext(starts, len, cs, k);
    if isSilence && !silent {
      RangesOfSnoc(Closed(flags, k), Run(k - Trail(flags, k), k), starts, len);
    }
  }

  /** After the last chunk, the closing range of an open run completes the
      ranges of all runs. */
  lemma ScanChunksDone(flags: seq<bool>, starts: seq<nat>, len: nat, k: nat, i: int,
                       silent: bool, start: int, ranges: seq<Span>)
    requires ScanChunksInv(flags, starts, len, k, i, silent, start, ranges) && i >= len
    ensures (if silent then ranges else ranges + [Span(start, len)]) == RangesOf(Runs(flags), starts, len)
  {
    if !silent {
      RangesOfSnoc(Closed(flags, |flags|), Run(|flags| - Trail(flags, |flags|), |flags|), starts, len);
    }
  }

  /** The chunk loop of `split_on_silence`: scan the chunks of `chunkSize`
      samples once and record the sample range of each maximal run of
      non-silent chunks. */
  method ScanChunks<A>(sound: Sound<A>, silenceThreshAmp: Option<real>, chunkSize: nat,
                       ghost starts: seq<nat>, ghost flags: seq<bool>)
    returns (notSilenceRanges: seq<Span>)
    requires ChunkGrid(starts, sound.samples, chunkSize)
    requires |flags| == |starts|
    requires forall k :: 0 <= k < |flags| ==> flags[k] == !IsSilentChunk(sound, silenceThreshAmp, starts[k], chunkSize)
    ensures notSilenceRanges == RangesOf(Runs(flags), starts, sound.samples)
  {
    notSilenceRanges := [];
    var silent := true;
    var start := 0;
    var segmentLen := sound.samples;
    ghost var k := 0;
    var i := 0;
    while i < segmentLen
      invariant ScanChunksInv(flags, starts, segmentLen, k, i, silent, start, notSilenceRanges)
      decreases segmentLen as int - i
    {
      var chunkEnd := if i + chunkSize < segmentLen then i + chunkSize else segmentLen;
      var rms := sound.rms(i, chunkEnd);
      var isSilence := silenceThreshAmp.Some? && rms < silenceThreshAmp.value;
      assert chunkEnd == ChunkEnd(i, chunkSize, sound.samples);
      assert isSilence == IsSilentChunk(sound, silenceThreshAmp, starts[k], chunkSize);
      ScanChunksStep(flags, starts, segmentLen, chunkSize, k, i, silent, start, notSilenceRanges, isSilence);
      if isSilence {
        if !silent {
          notSilenceRanges := notSilenceRanges + [Span(start, i)];
          silent := true;
        }
      } else if silent {
        start := i;
        silent := false;
      }
      i := i + chunkSize;
      k := k + 1;
    }
    ScanChunksDone(flags, starts, segmentLen, k, i, silent, start, notSilenceRanges);
    if !silent {
      notSilenceRanges := notSilenceRanges + [Span(start, segmentLen)];
    }
  }

  /** The slicing loop of `split_on_silence`: widen every range by `keep`
      samples on both sides, within the segment, and slice it out. */
  method CutChunks<A>(sound: Sound<A>, notSilenceRanges: seq<Span>, keepSilenceSamples: int) returns (chunks: seq<A>)
    ensures |chunks| == |notSilenceRanges|
    ensures forall p :: 0 <= p < |chunks| ==>
      chunks[p] == sound.slice(Pad(notSilenceRanges[p], keepSilenceSamples, sound.samples).start,
                               Pad(notSilenceRanges[p], keepSilenceSamples, sound.samples).end)
  {
    var segmentLen := sound.samples;
    chunks := [];
    for q := 0 to |notSilenceRanges|
      invariant |chunks| == q
      invariant forall p :: 0 <= p < q ==>
        chunks[p] == sound.slice(Pad(notSilenceRanges[p], keepSilenceSamples, segmentLen).start,
                                 Pad(notSilenceRanges[p], keepSilenceSamples, segmentLen).end)
    {
      var startI := if notSilenceRanges[q].start - keepSilenceSamples > 0 then notSilenceRanges[q].start - keepSilenceSamples else 0;
      var endI := if segmentLen < notSilenceRanges[q].end + keepSilenceSamples then segmentLen else notSilenceRanges[q].end + keepSilenceSamples;
      assert Pad(notSilenceRanges[q], keepSilenceSamples, segmentLen) == Span(startI, endI);
      chunks := chunks + [sound.slice(startI, endI)];
    }
  }

  /** `split_on_silence`: scan the chunks once, record each maximal run of
      non-silent chunks, widen each by `keep_silence` and slice it out. */
  method SplitOnSilence<A>(sound: Sound<A>, minSilenceLen: real, silenceThresh: real, keepSilence: real)
    returns (chunks: seq<A>)
    ensures var spans := SplitSpans(sound, minSilenceLen, silenceThresh, keepSilence);
      |chunks| == |spans| && forall q :: 0 <= q < |chunks| ==> chunks[q] == sound.slice(spans[q].start, spans[q].end)
  {
    var silenceThreshAmp := ThresholdAmp(sound.dBFS, silenceThresh);
    var segmentLen := sound.samples;
    var chunkSize := ChunkSize(sound.frameRate, minSilenceLen);
    ghost var starts := ChunkStarts(0, segmentLen, chunkSize);
    forall k, l | 0 <= k && l == k + 1 && l < |starts| ensures starts[l] == starts[k] + chunkSize {
      ChunkStartsStep(0, segmentLen, chunkSize, k);
    }
    ghost var flags := NonSilent(sound, silenceThreshAmp, starts, chunkSize);
    assert ChunkGrid(starts, segmentLen, chunkSize);
    var notSilenceRanges := ScanChunks(sound, silenceThreshAmp, chunkSize, starts, flags);
    assert notSilenceRanges == NotSilenceRanges(sound, minSilenceLen, silenceThresh);
    var keepSilenceSamples := KeepSamples(sound.frameRate, keepSilence);
    chunks := CutChunks(sound, notSilenceRanges, keepSilenceSamples);
  }

  // ---------------------------------------------------------------- facts about the splitter

  /** Chunk starts strictly increase. */
  lemma {:induction false} ChunkStartsIncreasing(from: nat, len: nat, cs: nat)
    requires cs >= 1
    ensures forall a, b :: 0 <= a < b < |ChunkStarts(from, len, cs)| ==>
              ChunkStarts(from, len, cs)[a] < ChunkStarts(from, len, cs)[b]
    decreases len - from
  {
    if from < len {
      var s := ChunkStarts(from, len, cs);
      var t := ChunkStarts(from + cs, len, cs);
      ChunkStartsIncreasing(from + cs, len, cs);
      forall a, b | 0 <= a < b < |s| ensures s[a] < s[b] {
        assert s[b] == t[b - 1];
        if a > 0 { assert s[a] == t[a - 1]; }
      }
    }
  }

  predicate IncreasingBelow(starts: seq<nat>, len: nat)
  {
    && (forall a, b :: 0 <= a < b < |starts| ==> starts[a] < starts[b])
    && (forall k :: 0 <= k < |starts| ==> starts[k] < len)
  }

  /** Chunk boundaries are ordered like chunk indices. */
  lemma BoundOrder(starts: seq<nat>, len: nat, a: nat, b: nat)
    requires IncreasingBelow(starts, len)
    requires a <= |starts| && b <= |starts|
    ensures a < b <==> Bound(starts, a, len) < Bound(starts, b, len)
  {
  }

  /** The sample ranges of the runs of a flag sequence over increasing chunk
      starts: each is non-empty and within the segment, consecutive ranges are
      separated by at least one silent chunk, and a chunk is non-silent
      exactly when its first sample lies in some range. */
  lemma RangesOfFacts(flags: seq<bool>, starts: seq<nat>, len: nat)
    requires |flags| == |starts| && IncreasingBelow(starts, len)
    ensures var ranges := RangesOf(Runs(flags), starts, len);
      && (forall q :: 0 <= q < |ranges| ==> 0 <= ranges[q].start < ranges[q].end <= len)
      && (forall q :: 0 <= q < |ranges| - 1 ==> ranges[q].end < ranges[q + 1].start)
      && (forall k :: 0 <= k < |flags| ==>
            (flags[k] <==> exists q :: 0 <= q < |ranges| && ranges[q].start <= starts[k] < ranges[q].end))
  {
    RunsDecompose(flags);
    RangesOrdered(flags, starts, len);
    forall k | 0 <= k < |flags| ensures flags[k] <==> InRange(RangesOf(Runs(flags), starts, len), starts[k]) {
      RangesCover(flags, starts, len, k);
    }
  }

  predicate InRange(ranges: seq<Span>, j: int)
  {
    exists q :: 0 <= q < |ranges| && ranges[q].start <= j < ranges[q].end
  }

  lemma RangesOrdered(flags: seq<bool>, starts: seq<nat>, len: nat)
    requires |flags| == |starts| && IncreasingBelow(starts, len)
    requires IsRunDecomposition(flags, Runs(flags))
    ensures var ranges := RangesOf(Runs(flags), starts, len);
      && (forall q :: 0 <= q < |ranges| ==> 0 <= ranges[q].start < ranges[q].end <= len)
      && (forall q :: 0 <= q < |ranges| - 1 ==> ranges[q].end < ranges[q + 1].start)
  {
    var runs := Runs(flags);
    var ranges := RangesOf(runs, starts, len);
    forall q | 0 <= q < |ranges| ensures 0 <= ranges[q].start < ranges[q].end <= len {
      assert Maximal(flags, runs[q]);
      BoundOrder(starts, len, runs[q].start, runs[q].end);
    }
    forall q | 0 <= q < |ranges| - 1 ensures ranges[q].end < ranges[q + 1].start {
      assert Maximal(flags, runs[q]) && Maximal(flags, runs[q + 1]);
      BoundOrder(starts, len, runs[q].end, runs[q + 1].start);
    }
  }

  lemma RangesCover(flags: seq<bool>, starts: seq<nat>, len: nat, k: nat)
    requires |flags| == |starts| && IncreasingBelow(starts, len)
    requires IsRunDecomposition(flags, Runs(flags))
    requires k < |flags|
    ensures flags[k] <==> InRange(RangesOf(Runs(flags), starts, len), starts[k])
  {
    if flags[k] {
      var runs := Runs(flags);
      var q :| 0 <= q < |runs| && runs[q].start <= k < runs[q].end;
      RunCovers(flags, starts, len, k, q);
    }
    if InRange(RangesOf(Runs(flags), starts, len), starts[k]) {
      var ranges := RangesOf(Runs(flags), starts, len);
      var q :| 0 <= q < |ranges| && ranges[q].start <= starts[k] < ranges[q].end;
      RangeInRun(flags, starts, len, k, q);
    }
  }

  /** A chunk inside run `q` starts inside range `q`. */
  lemma RunCovers(flags: seq<bool>, starts: seq<nat>, len: nat, k: nat, q: nat)
    requires |flags| == |starts| && IncreasingBelow(starts, len)
    requires IsRunDecomposition(flags, Runs(flags))
    requires k < |flags| && q < |Runs(flags)| && Runs(flags)[q].start <= k < Runs(flags)[q].end
    ensures InRange(RangesOf(Runs(flags), starts, len), starts[k])
  {
    var runs := Runs(flags);
    var ranges := RangesOf(runs, starts, len);
    assert Bound(starts, k, len) == starts[k];
    assert Maximal(flags, runs[q]);
    BoundOrder(starts, len, runs[q].start, k);
    BoundOrder(starts, len, k, runs[q].end);
    assert ranges[q].start <= starts[k] < ranges[q].end;
  }

  /** A chunk that starts inside range `q` lies in run `q`. */
  lemma RangeInRun(flags: seq<bool>, starts: seq<nat>, len: nat, k: nat, q: nat)
    requires |flags| == |starts| && IncreasingBelow(starts, len)
    requires IsRunDecomposition(flags, Runs(flags))
    requires k < |flags| && q < |Runs(flags)|
    requires var ranges := RangesOf(Runs(flags), starts, len);
      ranges[q].start <= starts[k] < ranges[q].end
    ensures flags[k]
  {
    var runs := Runs(flags);
    assert Bound(starts, k, len) == starts[k];
    assert Maximal(flags, runs[q]);
    BoundOrder(starts, len, runs[q].start, k);
    BoundOrder(starts, len, k, runs[q].end);
    assert InRun(runs, k);
  }

  /** `not_silence_ranges`: every range is non-empty, lies within the segment
      and starts on a chunk boundary (a multiple of the chunk size); ranges are
      in order with a silent chunk between two of them; and a chunk is
      non-silent exactly when its first sample lies in some range. */
  lemma NotSilenceRangesFacts<A>(sound: Sound<A>, minSilenceLen: real, silenceThresh: real)
    ensures var ranges := NotSilenceRanges(sound, minSilenceLen, silenceThresh);
      var cs := ChunkSize(sound.frameRate, minSilenceLen);
      var starts := ChunkStarts(0, sound.samples, cs);
      var flags := SplitFlags(sound, minSilenceLen, silenceThresh);
      && (forall q :: 0 <= q < |ranges| ==> 0 <= ranges[q].start < ranges[q].end <= sound.samples)
      && (forall q :: 0 <= q < |ranges| ==> ranges[q].start == Runs(flags)[q].start * cs)
      && (forall q :: 0 <= q < |ranges| - 1 ==> ranges[q].end < ranges[q + 1].start)
      && (forall k :: 0 <= k < |flags| ==>
            (flags[k] <==> exists q :: 0 <= q < |ranges| && ranges[q].start <= starts[k] < ranges[q].end))
  {
    var cs := ChunkSize(sound.frameRate, minSilenceLen);
    var starts := ChunkStarts(0, sound.samples, cs);
    var flags := SplitFlags(sound, minSilenceLen, silenceThresh);
    var runs := Runs(flags);
    var ranges := NotSilenceRanges(sound, minSilenceLen, silenceThresh);
    assert ranges == RangesOf(runs, starts, sound.samples);
    ChunkStartsIncreasing(0, sound.samples, cs);
    RangesOfFacts(flags, starts, sound.samples);
    RangeStartsOnBoundaries(flags, starts, sound.samples, cs);
  }

  /** Over chunk starts `0, cs, 2*cs, ...`, each run's range starts at the
      first sample of its first chunk. */
  lemma RangeStartsOnBoundaries(flags: seq<bool>, starts: seq<nat>, len: nat, cs: nat)
    requires cs >= 1 && starts == ChunkStarts(0, len, cs) && |flags| == |starts|
    ensures var ranges := RangesOf(Runs(flags), starts, len);
      forall q :: 0 <= q < |ranges| ==> ranges[q].start == Runs(flags)[q].start * cs
  {
    ChunkStartsAreMultiples(0, len, cs);
    var runs := Runs(flags);
    RunsDecompose(flags);
    forall q | 0 <= q < |runs| ensures Bound(starts, runs[q].start, len) == runs[q].start * cs {
      assert Maximal(flags, runs[q]);
    }
  }

  /** Every cut range lies within the segment and, when `keep_silence` is not
      negative, contains its non-silent range. */
  lemma SplitSpansWithin<A>(sound: Sound<A>, minSilenceLen: real, silenceThresh: real, keepSilence: real)
    ensures var spans := SplitSpans(sound, minSilenceLen, silenceThresh, keepSilence);
      var ranges := NotSilenceRanges(sound, minSilenceLen, silenceThresh);
      && |spans| == |ranges|
      && (forall q :: 0 <= q < |spans| ==> 0 <= spans[q].start && spans[q].end <= sound.samples)
      && (KeepSamples(sound.frameRate, keepSilence) >= 0 ==>
            forall q :: 0 <= q < |spans| ==> spans[q].start <= ranges[q].start && ranges[q].end <= spans[q].end)
  {
    NotSilenceRangesFacts(sound, minSilenceLen, silenceThresh);
    PadAllWithin(NotSilenceRanges(sound, minSilenceLen, silenceThresh), KeepSamples(sound.frameRate, keepSilence), sound.samples);
  }

  /** A segment whose every chunk is silent yields no chunk. */
  lemma AllSilentNoChunks<A>(sound: Sound<A>, minSilenceLen: real, silenceThresh: real, keepSilence: real)
    requires forall k :: 0 <= k < |SplitFlags(sound, minSilenceLen, silenceThresh)| ==>
               !SplitFlags(sound, minSilenceLen, silenceThresh)[k]
    ensures SplitSpans(sound, minSilenceLen, silenceThresh, keepSilence) == []
  {
    NoRunsIffAllFalse(SplitFlags(sound, minSilenceLen, silenceThresh));
  }

  /** The threshold is a loudness in dB added to the segment's dBFS and then
      compared with an RMS amplitude. The dBFS of a segment is at most 0 and an
      RMS is never negative, so with the negative `silence_thresh` that
      `isolate_speech` passes no chunk is ever silent, and a non-empty segment
      comes back as one chunk covering all of it. */
  lemma NegativeThresholdKeepsWholeSegment<A>(sound: Sound<A>, minSilenceLen: real, silenceThresh: real, keepSilence: real)
    requires silenceThresh < 0.0
    requires sound.dBFS.Some? ==> sound.dBFS.value <= 0.0
    requires forall a, b :: sound.rms(a, b) >= 0.0
    requires sound.samples > 0
    requires KeepSamples(sound.frameRate, keepSilence) >= 0
    ensures SplitSpans(sound, minSilenceLen, silenceThresh, keepSilence) == [Span(0, sound.samples)]
  {
    var cs := ChunkSize(sound.frameRate, minSilenceLen);
    var starts := ChunkStarts(0, sound.samples, cs);
    var flags := SplitFlags(sound, minSilenceLen, silenceThresh);
    forall k | 0 <= k < |flags| ensures flags[k] {
      assert !IsSilentChunk(sound, ThresholdAmp(sound.dBFS, silenceThresh), starts[k], cs);
    }
    AllTrueOneRun(flags, |flags|);
    assert Runs(flags) == [Run(0, |flags|)];
  }

  // ---------------------------------------------------------------- normalisation and recombination

  /** What `isolate_speech` uses of pydub besides the splitter: the loudness
      of a segment in dBFS (None for minus infinity), gain adjustment in dB,
      concatenation and the empty segment. */
  datatype SegmentOps<!A> = SegmentOps(dBFS: A -> Option<real>, applyGain: (A, real) -> A,
                                      concat: (A, A) -> A, empty: A)

  /** `normalize_volume`: shift a segment of finite loudness to -15 dBFS and
      return a segment of infinitely low loudness unchanged. */
  function NormalizeVolume<A>(ops: SegmentOps<A>, segment: A): A
  {
    match ops.dBFS(segment)
    case Some(d) => ops.applyGain(segment, TargetDbfs - d)
    case None => segment
  }

  /** pydub's contract for `apply_gain`: it shifts a finite loudness by the gain. */
  ghost predicate GainShiftsLoudness<A(!new)>(ops: SegmentOps<A>)
  {
    forall a, g :: ops.dBFS(a).Some? ==> ops.dBFS(ops.applyGain(a, g)) == Some(ops.dBFS(a).value + g)
  }

  ghost predicate ZeroGainIsIdentity<A(!new)>(ops: SegmentOps<A>)
  {
    forall a :: ops.applyGain(a, 0.0) == a
  }

  /** A segment of finite loudness comes out at the target loudness; a silent
      one is returned as it is. */
  lemma NormalizeReachesTarget<A(!new)>(ops: SegmentOps<A>, a: A)
    requires GainShiftsLoudness(ops)
    ensures ops.dBFS(a).Some? ==> ops.dBFS(NormalizeVolume(ops, a)) == Some(TargetDbfs)
    ensures ops.dBFS(a).None? ==> NormalizeVolume(ops, a) == a
  {
  }

  /** Normalising twice is normalising once. */
  lemma NormalizeIdempotent<A(!new)>(ops: SegmentOps<A>, a: A)
    requires GainShiftsLoudness(ops) && ZeroGainIsIdentity(ops)
    ensures NormalizeVolume(ops, NormalizeVolume(ops, a)) == NormalizeVolume(ops, a)
  {
    if ops.dBFS(a).Some? {
      var n := NormalizeVolume(ops, a);
      NormalizeReachesTarget(ops, a);
      assert NormalizeVolume(ops, n) == ops.applyGain(n, TargetDbfs - TargetDbfs);
    }
  }

  /** `result = AudioSegment.empty()` followed by `result += normalize_volume(chunk)`
      for every chunk in order. */
  function Combined<A>(ops: SegmentOps<A>, chunks: seq<A>): A
  {
    if chunks == [] then ops.empty
    else ops.concat(Combined(ops, chunks[..|chunks| - 1]), NormalizeVolume(ops, chunks[|chunks| - 1]))
  }

  ghost predicate IsMonoid<A(!new)>(ops: SegmentOps<A>)
  {
    && (forall a :: ops.concat(ops.empty, a) == a && ops.concat(a, ops.empty) == a)
    && (forall a, b, c :: ops.concat(ops.concat(a, b), c) == ops.concat(a, ops.concat(b, c)))
  }

  /** When concatenation is associative with the empty segment as identity,
      as for audio, recombining a list of chunks is recombining its two
      halves and concatenating the results. */
  lemma {:induction false} CombinedAppend<A(!new)>(ops: SegmentOps<A>, xs: seq<A>, ys: seq<A>)
    requires IsMonoid(ops)
    ensures Combined(ops, xs + ys) == ops.concat(Combined(ops, xs), Combined(ops, ys))
    decreases |ys|
  {
    if ys == [] {
      assert xs + ys == xs;
    } else {
      var init := ys[..|ys| - 1];
      var last := ys[|ys| - 1];
      assert (xs + ys)[..|xs + ys| - 1] == xs + init;
      assert (xs + ys)[|xs + ys| - 1] == last;
      CombinedAppend(ops, xs, init);
    }
  }

  /** The recombination loop of `isolate_speech`. */
  method CombineChunks<A>(ops: SegmentOps<A>, chunks: seq<A>) returns (result: A)
    ensures result == Combined(ops, chunks)
  {
    result := ops.empty;
    for j := 0 to |chunks|
      invariant result == Combined(ops, chunks[..j])
    {
      assert chunks[..j + 1][..j] == chunks[..j];
      var chunk := NormalizeVolume(ops, chunks[j]);
      result := ops.concat(result, chunk);
    }
    assert chunks[..|chunks|] == chunks;
  }

  // ---------------------------------------------------------------- isolate_speech

  /** The signals the library calls compute inside `isolate_speech`: the
      loaded samples `y`, the harmonic part of the filtered and denoised
      signal, its short-time energy, and `nr.reduce_noise(y)`, the fallback. */
  datatype Signals = Signals(original: seq<real>, harmonic: seq<real>, energy: seq<real>, denoised: seq<real>)

  /** What `isolate_speech` leaves behind: the path it returns, the samples it
      writes with `sf.write`, and the segment it exports over them, if any. */
  datatype Isolation<A> = Isolation(path: string, written: seq<real>, exported: Option<A>)

  /** The masked signal `y_harmonic * minimum(smoothed_mask, 1.0)`; the
      smoothing (`np.convolve(..., mode='same')`) is the parameter `smooth`. An
      element-wise product of two arrays of different lengths raises. */
  function Masked(sig: Signals, std: seq<real> -> real, smooth: seq<real> -> seq<real>): (r: Result<seq<real>, Exception>)
    ensures r.Ok? ==> |r.value| == |sig.harmonic|
  {
    var smoothed := smooth(SpeechMask(SpeechFrames(sig.energy, std), |sig.harmonic|));
    if |smoothed| != |sig.harmonic| then Err(ValueError("operands could not be broadcast together"))
    else Ok(Times(sig.harmonic, CapAtOne(smoothed)))
  }

  /** The cut chunks of a segment for the splitter's arguments. */
  function ChunksOf<A>(sound: Sound<A>): seq<A>
  {
    var spans := SplitSpans(sound, MinSilenceLenMs, SilenceThresholdDb, KeepSilenceMs);
    seq(|spans|, q requires 0 <= q < |spans| => sound.slice(spans[q].start, spans[q].end))
  }

  /** `isolate_speech`. `load` is `AudioSegment.from_file` on the samples just
      written; its failure, like any failure after the write, is caught. */
  function IsolationOf<A>(tempDir: string, audioPath: string, sig: Signals, std: seq<real> -> real,
                          smooth: seq<real> -> seq<real>, load: seq<real> -> Result<Sound<A>, Exception>,
                          ops: SegmentOps<A>): Result<Isolation<A>, Exception>
  {
    var masked := Masked(sig, std, smooth);
    if masked.Err? then Err(masked.error)
    else
      var written := if LowSpeech(masked.value, sig.original) then sig.denoised else masked.value;
      var exported :=
        if load(written).Err? || ChunksOf(load(written).value) == [] then None
        else Some(Combined(ops, ChunksOf(load(written).value)));
      Ok(Isolation(AudioPaths.SpeechOnlyPath(tempDir, audioPath), written, exported))
  }

  method IsolateSpeech<A>(tempDir: string, audioPath: string, sig: Signals, std: seq<real> -> real,
                          smooth: seq<real> -> seq<real>, load: seq<real> -> Result<Sound<A>, Exception>,
                          ops: SegmentOps<A>)
    returns (r: Result<Isolation<A>, Exception>)
    ensures r == IsolationOf(tempDir, audioPath, sig, std, smooth, load, ops)
  {
    var processedPath := AudioPaths.SpeechOnlyPath(tempDir, audioPath);
    var speechFrames := SpeechFrames(sig.energy, std);
    var speechMask := BuildSpeechMask(speechFrames, |sig.harmonic|);
    var smoothedMask := smooth(speechMask);
    if |smoothedMask| != |sig.harmonic| {
      return Err(ValueError("operands could not be broadcast together"));
    }
    smoothedMask := CapAtOne(smoothedMask);
    var ySpeech := Times(sig.harmonic, smoothedMask);
    var speechEnergy := SumOfSquares(ySpeech);
    var originalEnergy := SumOfSquares(sig.original);
    var speechRatio := if originalEnergy > 0.0 then speechEnergy / originalEnergy else 0.0;
    if speechRatio < SpeechRatioFloor {
      ySpeech := sig.denoised;
    }
    var exported: Option<A> := None;
    var sound := load(ySpeech);
    if sound.Ok? {
      var chunks := SplitOnSilence(sound.value, MinSilenceLenMs, SilenceThresholdDb, KeepSilenceMs);
      assert chunks == ChunksOf(sound.value);
      if chunks != [] {
        var result := CombineChunks(ops, chunks);
        exported := Some(result);
      }
    }
    r := Ok(Isolation(processedPath, ySpeech, exported));
  }

  // ---------------------------------------------------------------- facts about isolate_speech

  /** The mask only attenuates: when the smoothed mask is not negative, no
      masked sample is louder than the harmonic sample it comes from. */
  lemma MaskOnlyAttenuates(sig: Signals, std: seq<real> -> real, smooth: seq<real> -> seq<real>)
    requires forall i :: 0 <= i < |smooth(SpeechMask(SpeechFrames(sig.energy, std), |sig.harmonic|))| ==>
               smooth(SpeechMask(SpeechFrames(sig.energy, std), |sig.harmonic|))[i] >= 0.0
    ensures Masked(sig, std, smooth).Ok? ==>
      forall i :: 0 <= i < |sig.harmonic| ==> Abs(Masked(sig, std, smooth).value[i]) <= Abs(sig.harmonic[i])
  {
    var smoothed := smooth(SpeechMask(SpeechFrames(sig.energy, std), |sig.harmonic|));
    if |smoothed| == |sig.harmonic| {
      var c := CapAtOne(smoothed);
      forall i | 0 <= i < |sig.harmonic| ensures Abs(sig.harmonic[i] * c[i]) <= Abs(sig.harmonic[i]) {
        ScaleDown(sig.harmonic[i], c[i]);
      }
    }
  }

  function Abs(x: real): real
  {
    if x < 0.0 then -x else x
  }

  lemma ScaleDown(x: real, c: real)
    requires 0.0 <= c <= 1.0
    ensures Abs(x * c) <= Abs(x)
  {
    if x >= 0.0 {
      assert x * c <= x * 1.0;
    } else {
      assert (-x) * c <= (-x) * 1.0;
    }
  }

  /** The returned path, the fallback rule, and the export: nothing is
      exported when the written file cannot be loaded back or every chunk of
      it is silent. */
  lemma IsolationFacts<A>(tempDir: string, audioPath: string, sig: Signals, std: seq<real> -> real,
                          smooth: seq<real> -> seq<real>, load: seq<real> -> Result<Sound<A>, Exception>,
                          ops: SegmentOps<A>)
    ensures var r := IsolationOf(tempDir, audioPath, sig, std, smooth, load, ops);
      && (r.Err? <==> Masked(sig, std, smooth).Err?)
      && (r.Ok? ==> r.value.path == AudioPaths.SpeechOnlyPath(tempDir, audioPath))
      && (r.Ok? && SumOfSquares(sig.original) == 0.0 ==> r.value.written == sig.denoised)
      && (r.Ok? && SumOfSquares(Masked(sig, std, smooth).value) >= SpeechRatioFloor * SumOfSquares(sig.original) > 0.0 ==>
            r.value.written == Masked(sig, std, smooth).value)
      && (r.Ok? && load(r.value.written).Err? ==> r.value.exported == None)
      && (r.Ok? && load(r.value.written).Ok? &&
          (forall k :: 0 <= k < |SplitFlags(load(r.value.written).value, MinSilenceLenMs, SilenceThresholdDb)| ==>
             !SplitFlags(load(r.value.written).value, MinSilenceLenMs, SilenceThresholdDb)[k])
          ==> r.value.exported == None)
  {
    var masked := Masked(sig, std, smooth);
    if masked.Ok? {
      LowSpeechIff(masked.value, sig.original);
      var r := IsolationOf(tempDir, audioPath, sig, std, smooth, load, ops);
      var w := r.value.written;
      if load(w).Ok? {
        var sound := load(w).value;
        if forall k :: 0 <= k < |SplitFlags(sound, MinSilenceLenMs, SilenceThresholdDb)| ==>
             !SplitFlags(sound, MinSilenceLenMs, SilenceThresholdDb)[k] {
          AllSilentNoChunks(sound, MinSilenceLenMs, SilenceThresholdDb, KeepSilenceMs);
        }
      }
    }
  }

  /** Because no chunk is ever silent at -40 dB (`NegativeThresholdKeepsWholeSegment`),
      a loaded non-empty file is exported as one normalised chunk covering it. */
  lemma IsolationExportsWholeFile<A>(tempDir: string, audioPath: string, sig: Signals, std: seq<real> -> real,
                                     smooth: seq<real> -> seq<real>, load: seq<real> -> Result<Sound<A>, Exception>,
                                     ops: SegmentOps<A>)
    requires IsolationOf(tempDir, audioPath, sig, std, smooth, load, ops).Ok?
    requires var sound := load(IsolationOf(tempDir, audioPath, sig, std, smooth, load, ops).value.written);
      && sound.Ok? && sound.value.samples > 0 && sound.value.frameRate >= 0
      && (sound.value.dBFS.Some? ==> sound.value.dBFS.value <= 0.0)
      && (forall a, b :: sound.value.rms(a, b) >= 0.0)
    ensures var r := IsolationOf(tempDir, audioPath, sig, std, smooth, load, ops).value;
      var sound := load(r.written).value;
      r.exported == Some(ops.concat(ops.empty, NormalizeVolume(ops, sound.slice(0, sound.samples))))
  {
    var r := IsolationOf(tempDir, audioPath, sig, std, smooth, load, ops).value;
    var sound := load(r.written).value;
    assert KeepSamples(sound.frameRate, KeepSilenceMs) >= 0;
    NegativeThresholdKeepsWholeSegment(sound, MinSilenceLenMs, SilenceThresholdDb, KeepSilenceMs);
    var chunks := ChunksOf(sound);
    assert chunks == [sound.slice(0, sound.samples)];
    assert chunks[..0] == [];
    assert Combined(ops, chunks) == ops.concat(ops.empty, NormalizeVolume(ops, sound.slice(0, sound.samples)));
    assert r.exported == Some(Combined(ops, chunks));
  }
}
