# A verified model of the video-analytics back end

The back end scrapes short-form videos and scores them. It stores the videos
in object storage and indexes their posts in a vector database. It extracts
scene-change keyframes, transcribes the audio of each keyframe's window,
isolates the speech and measures it, and sends frames and transcripts to a
language model for summaries, screenplays, hooks and style features. This
project models the logic of those services in Dafny and proves what the code
guarantees about it.

The model takes the source's own form:

- Pure code (string handling, JSON span extraction, scoring, sentence
  splitting, URL parsing, the speech-mask arithmetic) is functions and lemmas.
- Code that loops frame by frame, chunk by chunk or row by row is a method
  with a `while` loop, proved against a specification function.
- Services that change the world are methods on `Effects.World`. It holds
  the storage objects, the local files, the scraper's browser and a trace of
  effects in order. `VectorDb.VectorDbService` is a class whose collections
  and failed-object list the methods update.

Whatever a library or a remote service decides is a parameter of the call:

- what a decoder reads;
- what the speech recogniser returns;
- what the language model replies;
- whether storage accepts a file;
- what the DSP routines measure.

The contracts then say what the code does with those values.

Modules follow the source files:

- `Frames`, `VisualService`, `VideoAnalyticsService`, `Windows`: keyframes
  and windows.
- `Transcription`, `AudioPaths`, `AudioProcessor`, `AudioMetrics`,
  `SpeechIsolation`, `FlagRuns`: the audio processor. `FlagRuns` is the run
  decomposition behind pause counting and silence splitting.
- `LlmAgent`, `ClientLlmAgent`: the two language-model services.
- `Prompt`, `VideoUtils`, `JsonData`: JSON extraction.
- `Dataframe`, `Transcript`: the utilities.
- `S3Service`, `Effects`, `Ingestion`, `VectorDb`: storage and ingestion.
- `FeatureExtraction`, `AudioWindows`, `Recommendation`, `VideoService`: the
  composed services.
- `Wrappers`, `Strings`, `Stats`, `Settings`: shared helpers and the
  configuration constants.

Facts the proofs bring out about the code as written:

- `transcribe` passes a window only when both bounds are truthy. A window
  starting at 0 therefore records the whole file, and the first keyframe
  window's transcript is the complete transcript
  (`AudioWindows.FirstWindowIsCompleteTranscript`).
- When no speech is recognised, the "No speech detected" message formats
  the bounds with `:.2f`. A `None` bound there raises TypeError, which
  `except Exception` does not catch, because the raise happens inside the
  `except sr.UnknownValueError` handler. So a whole-file transcription with
  no speech raises (`Transcription.NoSpeechWithoutBoundsRaises`).
- `download_from_s3` takes the bucket to be field 2 of the `/`-split. So a
  location built from a bucket name that contains `/` does not round-trip
  (`S3Service.ParseLocation`, `S3Service.SlashInBucketCut`).
- `split_on_silence` adds the threshold, a loudness in dB, to the
  segment's dBFS and compares each chunk's RMS amplitude with the sum.
  `isolate_speech` passes -40. A dBFS is at most 0, so the sum is negative,
  and no RMS is below it: no chunk is ever silent, and a non-empty segment
  is kept whole (`SpeechIsolation.NegativeThresholdKeepsWholeSegment`).
- The keyframe loop of the analytics service fails on a video with no
  frames, where the visual service's loop returns an empty list
  (`VideoAnalyticsService.AgreesWithVisualService`).
- Several imports name things the repository does not define:
  - `KeyframeContext` and `Video` from app/models/video.py;
  - `download_from_s3` of app/services/s3_service.py, which does not
    define it (app/services/client/s3_service.py defines it, beside a
    commented-out copy);
  - `extract_keyframes` and `extract_hook_frame` of app/utils/video.py;
  - the `VideoProcessorService` of app/services/feature_extraction_service.py.

  The model binds each to the contract of the definition that does exist:
  - the six-field `Windows.KeyframeContext`;
  - the download of app/services/client/s3_service.py;
  - a function parameter for `extract_keyframes`
    (`Recommendation.ProcessVideo`, `VideoService.ProcessVideo`);
  - the hook frame of the visual service for `extract_hook_frame`
    (`VisualService.ExtractHookFrame` and `VisualService.HookFrameOf`,
    used by `Ingestion.GetHook`);
  - `VisualService` for `VideoProcessorService`.

## Model

| member | source | states |
|---|---|---|
| Frames.Trunc | app/services/visual/visual_service.py:48 | `int(x)` truncates toward zero: the result is within one of `x`, on the side of 0 |
| Frames.Ceil | app/services/visual/visual_service.py:103-106 | the smallest integer not below `x`, the count of reads `while current_frame < frame_number` performs |
| Frames.VideoDuration | app/utils/video.py:27-42 | 0.0 for an unopened capture; ZeroDivisionError at frame rate 0; otherwise a duration that times the rate gives the frame count |
| Frames.Selected | app/services/visual/visual_service.py:58-75 | empty exactly when no frame is examined; otherwise starts with frame 0 and holds only examined indices |
| Frames.KeyframesAt | app/services/visual/visual_service.py:68 | one `(i, i/fps, frame i)` tuple per kept index, in order |
| Frames.SelectedFacts | app/services/visual/visual_service.py:63-75 | kept indices strictly increase, are at least `min_frame_interval` apart, and each after the first is a scene change against the frame just before it |
| Frames.SelectedPrefix | app/services/visual/visual_service.py:58-75 | a kept frame stays kept: the selection after m frames is a prefix of the selection after n ≥ m frames, and later entries are ≥ m |
| Frames.SelectedCharacterization | app/services/visual/visual_service.py:63-70 | frame k ≥ 1 is kept iff the interval since the last kept frame has elapsed and k is a scene change against frame k-1 |
| Frames.ScanResultFacts | app/services/visual/visual_service.py:58-79 | a scan of m ≥ 1 frames starts with `(0, 0, frame 0)`, ends with `(m, m/fps, frame m-1)`, has strictly increasing frame numbers, and stamps each with frame_number/fps |
| VisualService.MaxFrame | app/services/visual/visual_service.py:49 | `max_frame` exists iff the duration is truthy, and then it is `int(duration * fps)` |
| VisualService.Examined | app/services/visual/visual_service.py:58-61 | the loop examines a prefix of the frames; every examined index passes the cutoff test, and stopping early means the cutoff applied |
| VisualService.CutoffBound | app/services/visual/visual_service.py:60-61 | a truthy `max_frame` bounds the frames examined; with none, or with 0, every frame is examined |
| VisualService.KeyframesOfFacts | app/services/visual/visual_service.py:30-82 | ValueError iff the video does not open; ZeroDivisionError iff frames are examined at rate 0; empty iff no frame is examined; otherwise frame 0 first, the closing tuple last, increasing frame numbers, timestamps frame/fps, and no kept frame at or past the cutoff |
| VisualService.LimitCoversFrameIff | app/services/visual/visual_service.py:49 | at a positive rate, the duration limit stops at a frame ≥ 1 iff `duration * fps >= 1` |
| VisualService.BeforeCutoff | app/services/visual/visual_service.py:49-61 | a frame that passes the cutoff test lies strictly before the cutoff time |
| VisualService.KeyframesOfCutoff | app/services/visual/visual_service.py:58-79 | every keyframe but the closing tuple passed the cutoff test and is stamped frame/fps |
| VisualService.KeyframesBeforeCutoff | app/services/visual/visual_service.py:49-79 | with a limit covering a frame, every keyframe but the closing tuple lies strictly before the limit |
| VisualService.KeyframesOfOk | app/services/visual/visual_service.py:42-48 | an opened video at a non-zero rate is scanned without error |
| VisualService.ScanLoop | app/services/visual/visual_service.py:52-75 | the read loop stops after `Examined` frames, holding the tuples of exactly the selected frames and the last frame read; it raises ZeroDivisionError iff it keeps a frame at rate 0 |
| VisualService.ExtractKeyframes | app/services/visual/visual_service.py:30-82 | the loop followed by the closing tuple yields exactly `KeyframesOf`, whose properties `KeyframesOfFacts` proves |
| VisualService.HookFrameOf | app/services/visual/visual_service.py:84-115 | a frame is returned iff the video opens and has at least `ceil(fps * frame_time) > 0` frames, and it is that frame |
| VisualService.ExtractHookFrame | app/services/visual/visual_service.py:96-115 | the read loop returns exactly `HookFrameOf`: None when the video runs out first, otherwise the last frame read |
| VideoAnalyticsService.KeyframesOfFacts | app/services/video_analytics_service.py:18-61 | ValueError iff the video does not open; ZeroDivisionError iff the rate is 0; AttributeError iff there are no frames; otherwise frame 0 first and `(n, n/fps, last frame)` last |
| VideoAnalyticsService.AgreesWithVisualService | app/services/video_analytics_service.py:33-58 | wherever this loop succeeds it equals the visual service's loop without a cutoff; on a frameless video that loop gives `[]` and this one AttributeError |
| VideoAnalyticsService.ExtractKeyframes | app/services/video_analytics_service.py:18-61 | the frame-by-frame loop yields exactly `KeyframesOf` |
| VideoAnalyticsService.ProcessVideo | app/services/video_analytics_service.py:63-108 | an extraction error propagates; otherwise the summary is of one context per keyframe with its window's transcript, and the screenplay is of the summary and the whole-video transcript |
| VideoAnalyticsService.KeyframeContexts | app/services/video_analytics_service.py:78-98 | the loop builds exactly `Contexts`: context `i` is numbered `i + 1`, carries keyframe `i`'s timestamp and image, and the transcript of the window from the previous keyframe's timestamp (0 for the first) to its own |
| Windows.Contexts | app/services/video_analytics_service.py:78-98 | one context per keyframe in order, numbered i+1, ending at the keyframe's timestamp, with the transcript of its window; windows start at 0 and are contiguous |
| Windows.ScanWindows | app/services/video_analytics_service.py:80-97 | over a scan at positive rate the first window is `[0, 0]` and every later window has positive length |
| Transcription.EngineFor | app/services/audio/audio_processor_service.py:57-61 | "google" selects the Google recogniser and every other model name Whisper |
| Transcription.RecordingFor | app/services/audio/audio_processor_service.py:41-45 | a window iff both bounds are truthy, with offset `start` and ending at `end`; otherwise the whole file |
| Transcription.Transcribe | app/services/audio/audio_processor_service.py:40-55 | the recognised text; "" when recognition fails; on no speech, "" when both bounds are given and TypeError otherwise |
| Transcription.ZeroStartIsWholeFile | app/services/audio/audio_processor_service.py:41-45 | a zero or missing bound records the whole file |
| Transcription.BoundedNeverRaises | app/services/audio/audio_processor_service.py:46-55 | with both bounds given, transcription always returns a string |
| Transcription.NoSpeechWithoutBoundsRaises | app/services/audio/audio_processor_service.py:50-52 | with a missing bound and no speech, transcription raises TypeError |
| AudioPaths.Stem | app/services/audio/audio_processor_service.py:74 | the stem has no `/`: it names a file within the directory |
| AudioPaths.SpeechOnlyOfRaw | app/services/audio/audio_processor_service.py:288-292 | the speech-only name of `<temp>/<stem>_raw.wav` is `<temp>/<stem>_speech_only.wav` |
| AudioPaths.RawThenSpeechOnly | app/services/audio/audio_processor_service.py:73-85 | extracting and isolating a video writes `<temp>/<stem>_speech_only.wav` |
| AudioPaths.WavPathShape | app/services/recommendation_service.py:26-28 | the audio path starts with the directory and a `/`, and its base name is the video's stem plus `.wav` |
| AudioProcessor.ExtractAudioPath | app/services/audio/audio_processor_service.py:63-91 | a path iff the audio is written and masking succeeds, and then it is `<temp>/<stem>_speech_only.wav` |
| AudioProcessor.SpeechOnlyName | app/services/audio/audio_processor_service.py:288-292 | isolating the raw extraction writes `<temp>/<stem>_speech_only.wav`, whose base name is that file name |
| AudioProcessor.NameInDir | app/services/audio/audio_processor_service.py:288-292 | the base name of the joined path is the speech-only file name |
| AudioProcessor.ExtractAudioFeatures | app/services/audio/audio_processor_service.py:464-485 | a falsy path gives no features; otherwise ValueError iff the file has no RMS frames, and else the four analyses of the file's measurements |
| AudioProcessor.ExtractedPathIsTruthy | app/services/audio/audio_processor_service.py:466-470 | the extracted path is falsy only when it is None: it is never the empty string |
| AudioProcessor.SilenceRatioZeroIffNoPause | app/services/audio/audio_processor_service.py:167-226 | the silence ratio is 0 iff the pause count finds no silent run |
| AudioMetrics.Voiced | app/services/audio/audio_processor_service.py:110-111 | every positive pitch value is kept as often as it occurs and nothing else is; empty iff no value is positive |
| AudioMetrics.VoicedConcat | app/services/audio/audio_processor_service.py:111 | the filter keeps frame order: the voiced frames of a concatenation are those of each part, in turn |
| AudioMetrics.VoicedSingle | app/services/audio/audio_processor_service.py:111 | a single frame is kept iff it is positive |
| AudioMetrics.AnalyzePitch | app/services/audio/audio_processor_service.py:93-140 | all six metrics 0 iff no value is voiced; otherwise the min, mean and max of the voiced values with 0 < min ≤ mean ≤ max, range max − min ≥ 0, and variability std/mean |
| AudioMetrics.AnalyzeVolume | app/services/audio/audio_processor_service.py:142-177 | an error iff there are no RMS frames |
| AudioMetrics.VolumeMeanAtMostMax | app/services/audio/audio_processor_service.py:160-161 | the mean volume never exceeds the maximum |
| AudioMetrics.VolumeDynamicsGuard | app/services/audio/audio_processor_service.py:164-165 | dynamics × mean equals the std when the mean is positive, and the dynamics are 0 otherwise |
| AudioMetrics.SilenceRatioBounds | app/services/audio/audio_processor_service.py:167-169 | the silence ratio lies in [0, 1] and is 0 iff no frame is below 0.1·mean |
| AudioMetrics.PauseDurations | app/services/audio/audio_processor_service.py:218-226 | one duration per pause: its frame count in seconds |
| AudioMetrics.CountPauses | app/services/audio/audio_processor_service.py:207-226 | the loop counts exactly the maximal runs of silent frames and yields their durations |
| AudioMetrics.AnalyzeSpeechRate | app/services/audio/audio_processor_service.py:179-236 | onsets per second and pauses per second, both 0 for a non-positive duration, and the mean pause duration, 0 when there is no pause |
| AudioMetrics.AnalyzeVoiceQuality | app/services/audio/audio_processor_service.py:238-275 | a measure that cannot be taken is 0; otherwise the harmonicity, jitter and shimmer are the measured values |
| FlagRuns.RunsDecompose | app/services/audio/audio_processor_service.py:207-226 | the runs are the maximal, separated, in-order runs of true flags, and every true flag lies in one |
| FlagRuns.NoRunsIffAllFalse | app/services/audio/audio_processor_service.py:207-226 | there is no run iff no flag is set |
| SpeechIsolation.LoudestFrameIsSpeech | app/services/audio/audio_processor_service.py:319-321 | with a positive mean energy and a std below five times it, some frame is marked as speech |
| SpeechIsolation.BuildSpeechMask | app/services/audio/audio_processor_service.py:323-332 | the frame loop that sets the spans builds exactly `SpeechMask` |
| SpeechIsolation.SpeechMaskFacts | app/services/audio/audio_processor_service.py:323-332 | a sample is 1 iff some speech frame's span `[i*512, i*512+2048)` covers it and 0 otherwise; with no speech frame the mask is all 0 |
| SpeechIsolation.CapAtOne | app/services/audio/audio_processor_service.py:337 | each value becomes min(v, 1): at most 1, and either unchanged or 1 |
| SpeechIsolation.LowSpeechIff | app/services/audio/audio_processor_service.py:342-349 | the fallback is taken iff the original energy is 0 or the ratio of masked to original energy is below 0.1 |
| SpeechIsolation.ChunkSize | app/services/audio/audio_processor_service.py:403-404 | a chunk is at least one sample long |
| SpeechIsolation.ChunkStarts | app/services/audio/audio_processor_service.py:407 | empty iff `from` ≥ the length; otherwise the starts run from `from`, stay below the length, and the last is within one chunk of the end |
| SpeechIsolation.ChunkStartsStep | app/services/audio/audio_processor_service.py:407 | consecutive starts differ by the chunk size |
| SpeechIsolation.ChunkStartsAreMultiples | app/services/audio/audio_processor_service.py:407 | start k is `from + k * size` |
| SpeechIsolation.ChunkStartsIncreasing | app/services/audio/audio_processor_service.py:407 | the starts strictly increase and lie below the length |
| SpeechIsolation.ScanChunks | app/services/audio/audio_processor_service.py:406-428 | given the chunk starts and non-silence flags, the loop yields the ranges of the maximal runs of non-silent chunks |
| SpeechIsolation.CutChunks | app/services/audio/audio_processor_service.py:430-444 | one slice per range, padded by the keep margin and clipped to the segment, in order |
| SpeechIsolation.SplitOnSilence | app/services/audio/audio_processor_service.py:387-444 | the slices of `SplitSpans`, in order |
| SpeechIsolation.RangesOfFacts | app/services/audio/audio_processor_service.py:417-428 | ranges are non-empty, within the segment, separated and in order, and a chunk is non-silent iff its start lies in a range |
| SpeechIsolation.NotSilenceRangesFacts | app/services/audio/audio_processor_service.py:392-428 | as `RangesOfFacts` for the segment's own chunks, and each range starts at its run's first chunk |
| SpeechIsolation.SplitSpansWithin | app/services/audio/audio_processor_service.py:430-442 | one span per range, within the segment, containing its range when the keep margin is non-negative |
| SpeechIsolation.AllSilentNoChunks | app/services/audio/audio_processor_service.py:392-444 | a segment whose every chunk is silent yields no pieces |
| SpeechIsolation.NegativeThresholdKeepsWholeSegment | app/services/audio/audio_processor_service.py:395-415 | with a negative threshold, a non-empty segment yields the single span covering it |
| SpeechIsolation.NormalizeReachesTarget | app/services/audio/audio_processor_service.py:446-462 | a segment with a loudness is brought to the target; a silent one (no loudness) is unchanged |
| SpeechIsolation.NormalizeIdempotent | app/services/audio/audio_processor_service.py:446-462 | normalising twice equals normalising once |
| SpeechIsolation.CombinedAppend | app/services/audio/audio_processor_service.py:371-377 | combining a concatenation is the concatenation of the two combinations |
| SpeechIsolation.CombineChunks | app/services/audio/audio_processor_service.py:371-377 | the `+=` loop combines the chunks into their concatenation in order |
| SpeechIsolation.IsolateSpeech | app/services/audio/audio_processor_service.py:277-385 | the method produces exactly `IsolationOf`, whose properties `IsolationFacts` states |
| SpeechIsolation.MaskOnlyAttenuates | app/services/audio/audio_processor_service.py:334-340 | with a non-negative smoothed mask, masking never raises a sample's magnitude |
| SpeechIsolation.IsolationFacts | app/services/audio/audio_processor_service.py:277-385 | an error iff masking fails; the path is the speech-only path; a silent original writes the denoised audio; a ratio at or above the floor writes the masked audio; a load failure or an all-silent file exports nothing |
| SpeechIsolation.IsolationExportsWholeFile | app/services/audio/audio_processor_service.py:354-380 | a non-empty loadable file is exported whole, normalised |
| LlmAgent.FormatHookDetailsIsSections | app/services/llm_agent_service.py:17-41 | the section parser agrees with an independent splitter on every text |
| LlmAgent.SectionsFailIff | app/services/llm_agent_service.py:20-22 | with both markers present, parsing fails with IndexError iff the audio marker comes before the visual one |
| LlmAgent.SectionsStripped | app/services/llm_agent_service.py:21-30 | each section is stripped, and the instructions are empty when their marker is missing |
| LlmAgent.TruncateWordsFacts | app/services/llm_agent_service.py:213-216 | a reply within 15 words is unchanged; a longer one keeps its first 15 words |
| LlmAgent.TruncateTranscript | app/services/llm_agent_service.py:244-245 | None gives ""; up to 500 characters unchanged; longer, its first 500 characters then `...` |
| LlmAgent.ScreenHook | app/services/llm_agent_service.py:158-187 | no frame gives the no-frame error; a failed request the caption error; the `NO HOOK` reply the no-caption string; any other reply itself |
| LlmAgent.VisualStyle | app/services/llm_agent_service.py:189-221 | no frame gives the no-frame error; a failed request the style error; a reply its first 15 words |
| LlmAgent.HookAnalysis | app/services/llm_agent_service.py:223-272 | no frame gives the four error strings; otherwise the visual summary is `VisualStyle`, and the sections come from the parsed analysis reply, or are the error strings when the request or the parse fails |
| LlmAgent.MisorderedMarkersGiveErrorStyle | app/services/llm_agent_service.py:256-272 | a reply with the markers out of order gives the error style |
| ClientLlmAgent.Chunks | app/services/client/llm_agent_service.py:330 | ⌈n/5⌉ chunks |
| ClientLlmAgent.ChunkAt | app/services/client/llm_agent_service.py:330 | chunk k is `items[5k .. min(5k+5, n)]`, and 5k < n |
| ClientLlmAgent.ChunksFacts | app/services/client/llm_agent_service.py:330 | each chunk has 1 to 5 items, and the chunks concatenate to the input |
| ClientLlmAgent.OrField | app/services/client/llm_agent_service.py:343-345 | a truthy field is kept; otherwise the reply's value under the key is read |
| ClientLlmAgent.Update | app/services/client/llm_agent_service.py:343-345 | fields that are truthy stay as they are |
| ClientLlmAgent.ScanFrom | app/services/client/llm_agent_service.py:334-353 | the scan stops at an index between its start and the chunk count, past the start whenever a chunk remains |
| ClientLlmAgent.ScanFromFacts | app/services/client/llm_agent_service.py:334-347 | the scan stops before the last chunk only when face and product are both set, and truthy fields are kept |
| ClientLlmAgent.LaterChunksUnsent | app/services/client/llm_agent_service.py:346-347 | once face and product are set, the chunks after the stopping point do not affect the result |
| ClientLlmAgent.CreatorLabel | app/services/client/llm_agent_service.py:356 | "Face is visible" when the face is set, else "Only hands" when the hand is set, else "No" |
| ClientLlmAgent.Images | app/services/client/llm_agent_service.py:328 | one image per keyframe, in order |
| ClientLlmAgent.GenerateStyleFeatures | app/services/client/llm_agent_service.py:310-358 | no keyframes gives the empty style; otherwise the style of the chunk scan over the keyframes' images from no flags |
| ClientLlmAgent.SummaryContent | app/services/client/llm_agent_service.py:82-94 | the prompt, then for each context in order its moment header, its image and its audio-window block |
| ClientLlmAgent.VisualFeaturesContent | app/services/client/llm_agent_service.py:273-282 | the prompt, then for each context in order its title and its image |
| ClientLlmAgent.Summary | app/services/client/llm_agent_service.py:96-101 | the reply object's `summary` member, and `{}` for a failed request, a non-object or a missing member |
| Prompt.ExtractJsonFacts | app/utils/prompt.py:32-60 | ValueError iff `{` or `}` is missing; otherwise JSONDecodeError iff the span does not decode, and its decode else |
| Prompt.ReversedBracesFail | app/utils/prompt.py:36-48 | when the last `}` precedes the first `{`, the empty candidate fails to decode |
| Prompt.SurroundingTextIgnored | app/utils/prompt.py:36-48 | text with no `{` before and no `}` after a JSON object does not change the result |
| JsonData.Slice | app/utils/prompt.py:42 | Python slicing: empty when the end is not after the start, otherwise the substring |
| JsonData.BraceSpan | app/utils/prompt.py:36-39 | None iff a brace is missing; otherwise the index of the first `{` and one past the last `}` |
| JsonData.CandidateErr | app/utils/prompt.py:36-40 | the candidate is the ValueError "No JSON structure found in response" exactly when `{` or `}` is missing |
| JsonData.CandidateBraced | app/utils/prompt.py:36-45 | with the first `{` before the last `}`, the candidate is the text between them inclusive, unchanged by `strip()` |
| JsonData.CandidateReversed | app/utils/prompt.py:36-45 | when the last `}` comes before the first `{`, the candidate is the empty text |
| JsonData.Member | app/utils/video_utils.py:47 | `in` tests the keys of an object, the elements of a list and the substrings of a string, and raises TypeError on other values |
| JsonData.Or | app/services/client/llm_agent_service.py:343-345 | Python `or`: truthy iff either operand is, and always one of them |
| JsonData.Lookup | app/services/client/llm_agent_service.py:343-345 | `response[key]`: the member; KeyError when it is absent; TypeError on a non-object |
| VideoUtils.HasAll | app/utils/video_utils.py:47 | true iff every key is a member; an error is the first key's error |
| VideoUtils.ValidateFacts | app/utils/video_utils.py:46-48 | accepted iff `summary` and `key_moments` are members, and then unchanged; an object lacking one gives the missing-keys ValueError; a scalar gives TypeError |
| VideoUtils.ExtractJson | app/utils/video_utils.py:28-60 | errors of the span extraction propagate; otherwise the validation of the decoded value |
| Dataframe.Recentness | app/utils/dataframe.py:8-19 | 365 for a difference of 0; otherwise the score times the difference is 365 |
| Dataframe.RecentnessBounds | app/utils/dataframe.py:15-18 | an age of at least one day scores in (0, 365], and an older post never scores more |
| Dataframe.FutureRecentnessNegative | app/utils/dataframe.py:12-18 | a future creation time gives a negative score |
| Dataframe.ExampleScore | app/utils/dataframe.py:22-30 | five days give recentness 73, and counters (100, 10, 5, 1000) then score 231.3 with the configured weights |
| Dataframe.ScoreNonNegative | app/utils/dataframe.py:24-30 | non-negative counters and a non-negative age give a non-negative score |
| Dataframe.Recentnesses | app/utils/dataframe.py:23 | one score per row, in order; an error iff some creation time is numeric or does not parse |
| Dataframe.CounterFault | app/utils/dataframe.py:24-28 | None iff every counter column is present and numeric in every row; otherwise the exception of the first counter, read left to right, that is not: KeyError naming it when its column is missing, TypeError when a cell of it is not a number |
| Dataframe.ImpactScores | app/utils/dataframe.py:22-32 | KeyError without `create_time`; an error iff a time fails, a counter is missing or a counter is not numeric; a failed creation time raises before any counter is read, and then the first counter that is not ready decides between KeyError and TypeError; otherwise `recentness_score` leaves the columns and `impact_score` joins them, each row gaining its weighted score with its other cells kept |
| Dataframe.TextCounterBeforeMissingIsTypeError | app/utils/dataframe.py:24-26 | a text `digg_count` with `comment_count` missing raises TypeError, since the first product fails before the second column is read |
| Transcript.FirstBreak | app/utils/transcript.py:8 | the first break at or after `from`, or the end of the text |
| Transcript.SpaceRun | app/utils/transcript.py:8 | the length of the maximal white-space run at a position |
| Transcript.Sentences | app/utils/transcript.py:8 | at least one piece, and the first is the text before the first break |
| Transcript.SentencesHaveNoBreak | app/utils/transcript.py:8 | no piece contains a break |
| Transcript.AudioHookFacts | app/utils/transcript.py:4-12 | None, "" or an `Error:` script gives the error message; otherwise the stripped text before the first break, the whole stripped script when there is none |
| Transcript.HookIsOneSentence | app/utils/transcript.py:8-12 | the hook holds no terminator followed by white space |
| FeatureExtraction.VisualContexts | app/services/feature_extraction_service.py:38-52 | ValueError for an unopenable video and ZeroDivisionError at rate 0; otherwise transcript-free contexts of the scan cut at min(duration, cutoff) |
| FeatureExtraction.VisualContextsWithinCutoff | app/services/feature_extraction_service.py:39-52 | every context but the last lies before the cutoff, and none has a transcript |
| FeatureExtraction.ZeroDurationScansWholeVideo | app/services/feature_extraction_service.py:39-40 | a duration of 0 gives the contexts of the uncut scan |
| FeatureExtraction.VisualFeatures | app/services/feature_extraction_service.py:38-57 | a context error propagates; otherwise the reply for the contexts |
| FeatureExtraction.StyleFeatures | app/services/feature_extraction_service.py:59-71 | a keyframe error propagates; otherwise the style of the chunk scan over the uncut scan's images |
| FeatureExtraction.FirstChunkDecides | app/services/feature_extraction_service.py:59-71 | when the reply to the first chunk sets face and product, the scan stops after one chunk and the creator is visible |
| FeatureExtraction.ScriptFor | app/services/feature_extraction_service.py:89-90 | a truthy script is used as given; otherwise the whole video is transcribed with the default engine |
| FeatureExtraction.AudioVisualHook | app/services/feature_extraction_service.py:76-100 | a transcription error propagates; otherwise the screen hook of the frame at 1 s, the audio hook of the script and the hook analysis |
| FeatureExtraction.GivenScriptNotTranscribed | app/services/feature_extraction_service.py:89-90 | with a non-empty script the hook succeeds and does not depend on the recogniser |
| FeatureExtraction.MissingScriptOutcomes | app/services/feature_extraction_service.py:89-94 | without a script, a recogniser failure gives the no-script audio hook and no speech gives TypeError |
| S3Service.Location | app/services/client/s3_service.py:31 | `s3://bucket/key` |
| S3Service.ParseUrl | app/services/client/s3_service.py:54-55 | IndexError for fewer than two `/`; otherwise a bucket with no `/` and the key after it |
| S3Service.ParseLocation | app/services/client/s3_service.py:31-55 | a built location parses back to its bucket and key iff the bucket has no `/` |
| S3Service.SlashInBucketCut | app/services/client/s3_service.py:54-55 | a bucket containing `/` is cut at its first `/` |
| S3Service.ExistsInBucket | app/services/client/s3_service.py:16-24 | true iff stored and not refused; false on `404` or when absent; any other code is re-raised as a ClientError |
| S3Service.Upload | app/services/client/s3_service.py:26-36 | a link iff the file exists and is accepted; then the location, and the object is stored |
| S3Service.Download | app/services/client/s3_service.py:51-67 | true iff the URL parses to a stored, served object; then the local file exists |
| S3Service.UploadThenFound | app/services/client/s3_service.py:26-67 | after an upload the object exists, and its link downloads when the bucket has no `/` |
| Effects.World.constructor | app/services/client/scraper_service.py:14-15 | a world with the given objects and files, no open browser and an empty trace |
| Effects.World.Record | app/services/ingestion_service.py:65 | an effect outside the state is appended to the trace and nothing else changes |
| Effects.World.OpenBrowser | app/services/client/scraper_service.py:17-33 | the browser is open and the opening is traced |
| Effects.World.CloseBrowser | app/services/client/scraper_service.py:35-37 | the browser is closed; a close is traced only when it was open |
| Effects.World.Scrape | app/services/client/scraper_service.py:39-100 | a path iff the browser is open and the page yields a video; then `temp/filename` is written and traced |
| Effects.World.Upload | app/services/client/s3_service.py:26-36 | the world's objects and link are those of `S3Service.Upload`; a success is traced |
| Effects.World.Download | app/services/client/s3_service.py:51-67 | the world's files and result are those of `S3Service.Download`; a success is traced |
| Effects.World.ExtractAudio | app/utils/audio.py:4-23 | true iff the video exists and decodes; then the audio file exists |
| Effects.World.Remove | app/services/recommendation_service.py:60 | removes an existing file; a missing one raises FileNotFoundError and changes nothing |
| Ingestion.VideoKeyInjective | app/services/ingestion_service.py:52 | distinct post ids give distinct storage keys |
| Ingestion.LinkOfFacts | app/services/ingestion_service.py:51-66 | a link is the post's location, with the object stored; objects grow by at most that key and files only shrink; an error is the ClientError, with no effect; a stored key gives its link with no effect; a closed browser performs no effect; any effects end with the temp file's removal and the pause |
| Ingestion.SecondCallHitsCache | app/services/ingestion_service.py:54-56 | repeating a successful call for the same post returns the same link with no effect |
| Ingestion.GetS3VideoLink | app/services/ingestion_service.py:51-66 | the method performs exactly `LinkOf` on the world |
| Ingestion.LinksErrStays | app/services/ingestion_service.py:30-34 | once a row's lookup raises, later rows change nothing |
| Ingestion.LinksGrow | app/services/ingestion_service.py:30-34 | stored objects only grow over the rows, and no browser event occurs |
| Ingestion.LinksShape | app/services/ingestion_service.py:30-34 | one link per row, each the post's location with its object stored |
| Ingestion.FetchLinks | app/services/ingestion_service.py:30-34 | with the browser open, the row loop performs exactly `Links` |
| Ingestion.DownloadVids | app/services/ingestion_service.py:27-37 | the browser is opened and the links fetched; an error leaves the browser open; otherwise each row gains its link and the browser is closed |
| Ingestion.TempPathsDiffer | app/services/ingestion_service.py:69-73 | for an `.mp4` URL the video and audio temporary paths differ |
| Ingestion.PostLinkPathsDiffer | app/services/ingestion_service.py:69-73 | the video and audio temporary paths of a post's location differ |
| Ingestion.TranscribeAtFacts | app/services/ingestion_service.py:68-87 | None iff the download fails or the audio cannot be extracted; a transcript is the whole-file transcription, with both temporary files removed; files gain nothing but the two paths |
| Ingestion.TranscribeVideo | app/services/ingestion_service.py:68-87 | the method performs exactly `TranscribeOf` on the world |
| Ingestion.TranscribeFiles | app/services/ingestion_service.py:68-87 | the method performs exactly `TranscribeAt` on the world |
| Ingestion.PostLinkTranscribes | app/services/ingestion_service.py:68-87 | a post whose location downloads, decodes and transcribes gets a transcript |
| Ingestion.StyleJsonRoundTrip | app/services/ingestion_service.py:117-119 | the stored style has exactly its four keys and decodes back to the style |
| Ingestion.GetHook | app/services/ingestion_service.py:89-121 | no link gives TypeError; a failed download gives no hooks and the empty style; otherwise the screen hook, audio hook and style, with the video downloaded and then removed |
| VectorDb.PropertyNamed | app/services/client/vector_db_service.py:10-61 | a listed property of that name; None iff no property has it |
| VectorDb.PropertyNamedAt | app/services/client/vector_db_service.py:10-61 | the first property of a name is the one found |
| VectorDb.SchemaFacts | app/services/client/vector_db_service.py:10-61 | the primary key is a property; the last property is the text `object`, neither filterable nor searchable, and no other property sets those flags |
| VectorDb.StoppedStays | app/services/client/vector_db_service.py:90-99 | once the batch stops, later records change nothing |
| VectorDb.SubmitPrefix | app/services/client/vector_db_service.py:90-99 | the first n steps depend only on the first n records |
| VectorDb.LaterRecordsNeverAdded | app/services/client/vector_db_service.py:90-99 | records after the stop are never added |
| VectorDb.SubmitBounds | app/services/client/vector_db_service.py:84-107 | at most the error limit plus one failures; objects only gain keys; a missing collection gains nothing |
| VectorDb.CleanBatchAddsAll | app/services/client/vector_db_service.py:90-107 | with no failure and no key error, every record is stored under the uuid5 of its primary key |
| VectorDb.WithCollectionFacts | app/services/client/vector_db_service.py:63-82 | the collection exists afterwards; an existing one and every other collection are kept; creating twice equals creating once |
| VectorDb.VectorDbService.constructor | app/services/client/vector_db_service.py:8-9 | a service over the given collections with no failed objects |
| VectorDb.VectorDbService.CreateCollection | app/services/client/vector_db_service.py:63-82 | true iff the call does not fail, and then the collection exists; the failed objects are kept |
| VectorDb.VectorDbService.BatchAdd | app/services/client/vector_db_service.py:84-107 | KeyError when a record lacks the primary key; otherwise true iff no object failed; the failures are recorded and the collection gains the batch's objects |
| VectorDb.VectorDbService.RecordExists | app/services/client/vector_db_service.py:109-118 | true iff the collection exists and holds the uuid5 of the key |
| VectorDb.AddedPostExists | app/services/client/vector_db_service.py:84-118 | every post of a clean batch then exists under the uuid5 of its primary key |
| AudioWindows.ProcessOutcomes | app/services/recommendation_service.py:30-70 | ValueError iff extraction fails, and then nothing changes; a failed whole-file transcription gives TypeError with the WAV left behind; success iff both succeed, with the WAV removed and the screenplay of the summary and full transcript |
| AudioWindows.WindowTranscriptsPresent | app/services/recommendation_service.py:43-47 | every window has a transcript |
| AudioWindows.FirstWindowIsCompleteTranscript | app/services/recommendation_service.py:34-47 | the first window's transcript is the complete transcript |
| AudioWindows.ProcessOrder | app/services/recommendation_service.py:30-68 | `|keyframes| + 5` events: extraction first, transcriptions only between it and the single removal, the two requests after the removal, summary before screenplay |
| AudioWindows.TranscribeWindows | app/services/recommendation_service.py:36-57 | the loop yields `Contexts` over the window transcripts and traces one transcription per window, in order |
| AudioWindows.ProcessAt | app/services/recommendation_service.py:26-70 | the method performs exactly `Process` on the world |
| Recommendation.ProcessVideo | app/services/recommendation_service.py:17-70 | a zero frame rate raises before any effect; otherwise `Process` over the keyframes of the video's duration |
| Recommendation.EditsRequest | app/services/recommendation_service.py:77-80 | an object with exactly the two keys, the dumps of the high performers in order and of the low performer |
| Recommendation.EditsRequestDeterminesVideos | app/services/recommendation_service.py:77-80 | with an injective dump, the request determines the videos |
| VideoService.ProcessVideo | app/services/video_service.py:16-66 | `Process` over the keyframes of the whole video |

## Left out

- Signal processing is not modelled: decoding, STFT, RMS, Praat pitch and voice measures, onset detection, filtering, noise reduction, the harmonic/percussive split, the smoothing convolution and `np.std`. Their results are parameters.
- Floating point: reals stand for floats, and rounding is not modelled.
- The `int16` conversion of the isolated audio and any overflow in it are not modelled.
- HTTP requests to the language model, the prompt files read by `load_prompt`, and `frame_to_base64` are not modelled: a reply is a parameter, and an image is an opaque frame.
- The retry loops around language-model requests are folded into the reply parameter.
- The text of printed messages and `:.2f` formatting are not modelled. Only the TypeError a `None` bound raises is kept.
- The copies that repeat already-modelled code are modelled once:
  - app/services/s3_service.py;
  - app/services/audio/audio_service.py;
  - app/services/audio_analytics_service.py;
  - the repeated functions of app/services/client/llm_agent_service.py.
- The pandas `apply` of `transcribe`/`add_hook` over rows is not modelled as such: the per-row operations are.
- `os.makedirs` and `tempfile.mkdtemp`/`gettempdir` are not modelled: the temporary directory is a parameter.
- The sleep duration (`random.randint(5, 15)`) is not modelled: only the pause is traced.
- Selenium navigation and cookies are not modelled: the page's yield is the flag `fetched`.
- Effects.World.CloseBrowser: the driver's `is_connectable` check is modelled as the browser being open. After `quit` the source does not reset the driver; the model marks it closed.
- extract_keyframes and extract_hook_frame of app/utils/video.py are not part of this model: the keyframes are a parameter, and the hook frame is the visual service's `extract_hook_frame`.
- SpeechIsolation.CutChunks: `audio_segment[start_i:end_i]` is pydub slicing, which counts milliseconds, while `split_on_silence` passes sample indices. The model's `Sound.slice` takes the indices as given and does not convert them. On the path `isolate_speech` takes this changes nothing: its one span is `(0, len)`, whose end, a sample count, is at least the duration in milliseconds at any frame rate of 1000 Hz or more, and pydub clips it to the whole file.
- VectorDb.Uuid5: `generate_uuid5` hashes `str(identifier)`, so keys with the same text, such as the number 7 and the string "7", get the same id. The model keys ids by the JSON value itself and keeps such keys apart. SHA-1 collisions are not modelled either.
- VectorDb.VectorDbService.BatchAdd: the dynamic batch is modelled as synchronous submission.
- VectorDb.VectorDbService.RecordExists: a missing collection gives False rather than a client error.
- Ingestion.StyleJsonRoundTrip: the result of `json.dumps` is kept as a JSON value, not as text.
- `suggest_edits`' language-model call itself is not modelled: only the request it sends is (`Recommendation.EditsRequest`).
- app/models/video.py and app/models/post.py are not part of this model beyond the fields the services use.
- The routes and run.py are not modelled: they are web endpoints.
- Dataframe.Recentness: parsing `create_time` and reading the clock are one parameter, the whole days since creation.
