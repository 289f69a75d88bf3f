/** `transcribe` and `_get_transcript`, which
    app/services/audio/audio_processor_service.py and
    app/services/audio/audio_service.py define identically (they differ only
    in the default engine). The speech recogniser is a parameter: what it
    returns for a file, an engine and a recording window. */
module Transcription {
  import opened Wrappers

  /** `recognizer.record(source, duration, offset)`: the whole file, or
      `duration` seconds from `offset`. */
  datatype Recording = WholeFile | Window(offset: real, duration: real)

  datatype Engine = Google | Whisper

  /** The model name of an `AudioService()` built with its default. */
  const AudioServiceModel: string := "whisper"

  /** What recognition yields: a transcript, `sr.UnknownValueError` (no
      speech recognised), or any other exception (an unreadable file, a
      failed request). */
  datatype Recognition = Recognized(text: string) | UnknownValue | Failed

  /** `_get_transcript`: Google for the model name "google", Whisper for any
      other name. */
  function EngineFor(model: string): (e: Engine)
    ensures e == Google <==> model == "google"
  {
    if model == "google" then Google else Whisper
  }

  /** A Python float argument is truthy when it is given and not 0.0. */
  predicate Truthy(x: Option<real>)
  {
    x.Some? && x.value != 0.0
  }

  /** `if start_time and end_time`: a window from the start to the end, else
      the whole file. */
  function RecordingFor(start: Option<real>, end: Option<real>): (r: Recording)
    ensures r.Window? <==> Truthy(start) && Truthy(end)
    ensures r.Window? ==> r.offset == start.value && r.offset + r.duration == end.value
  {
    if Truthy(start) && Truthy(end) then Window(start.value, end.value - start.value) else WholeFile
  }

  /** `transcribe`. Every failure gives the empty transcript, except that the
      handler for `UnknownValueError` formats both bounds with `:.2f`, which
      raises `TypeError` when either bound is None. */
  function Transcribe(audioPath: string, start: Option<real>, end: Option<real>, model: string,
                      recognize: (string, Engine, Recording) -> Recognition): (r: Result<string, Exception>)
    ensures var rec := recognize(audioPath, EngineFor(model), RecordingFor(start, end));
      && (rec.Recognized? ==> r == Ok(rec.text))
      && (rec.Failed? ==> r == Ok(""))
      && (rec.UnknownValue? ==> r == if start.Some? && end.Some? then Ok("") else Err(TypeError))
  {
    match recognize(audioPath, EngineFor(model), RecordingFor(start, end))
    case Recognized(text) => Ok(text)
    case Failed => Ok("")
    case UnknownValue => if start.Some? && end.Some? then Ok("") else Err(TypeError)
  }

  /** A window starting at 0.0, the first context window of a video, is not
      a window: the whole file is transcribed. */
  lemma ZeroStartIsWholeFile(start: Option<real>, end: Option<real>)
    requires start == Some(0.0) || end == Some(0.0) || start.None? || end.None?
    ensures RecordingFor(start, end) == WholeFile
  {
  }

  /** With both bounds given, `transcribe` never raises. */
  lemma BoundedNeverRaises(audioPath: string, start: real, end: real, model: string,
                           recognize: (string, Engine, Recording) -> Recognition)
    ensures Transcribe(audioPath, Some(start), Some(end), model, recognize).Ok?
  {
  }

  /** Without bounds (the complete transcript), a file in which no speech is
      recognised makes `transcribe` raise `TypeError` instead of returning "". */
  lemma NoSpeechWithoutBoundsRaises(audioPath: string, model: string,
                                    recognize: (string, Engine, Recording) -> Recognition)
    requires recognize(audioPath, EngineFor(model), WholeFile) == UnknownValue
    ensures Transcribe(audioPath, None, None, model, recognize) == Err(TypeError)
  {
  }
}
