/** The text handling of `LlmAgentService` (app/services/llm_agent_service.py):
    parsing the sectioned analysis the model returns, truncating replies and
    transcripts, and mapping replies and failures to the strings the
    service returns. The HTTP requests, the prompts read from files and the
    JPEG encoding of frames are not modelled: a model reply is a parameter
    (`Err` when the request raised). */
module LlmAgent {
  import opened Wrappers
  import opened Strings

  const VisualMarker: string := "VISUAL_STYLE:"
  const AudioMarker: string := "AUDIO_STYLE:"
  const InstructionsMarker: string := "CREATOR_INSTRUCTIONS:"

  datatype HookDetails = HookDetails(visualStyle: string, audioStyle: string, creatorInstructions: string)

  const FallbackVisual: string := "Could not parse visual style from analysis."
  const FallbackAudio: string := "Could not parse audio style from analysis."

  /** `_format_hook_details`, with the splits as written. `parts[0].split(
      "VISUAL_STYLE:")[1]` raises IndexError when the first `VISUAL_STYLE:`
      comes after the first `AUDIO_STYLE:`. */
  function FormatHookDetails(text: string): Result<HookDetails, Exception>
  {
    if Contains(text, VisualMarker) && Contains(text, AudioMarker) then
      var parts := Split(text, AudioMarker);
      var visualParts := Split(parts[0], VisualMarker);
      if |visualParts| < 2 then Err(IndexError)
      else
        var visualStyle := Strip(visualParts[1]);
        SplitHead(text, AudioMarker);
        if Contains(parts[1], InstructionsMarker) then
          var remaining := Split(parts[1], InstructionsMarker);
          SplitHead(parts[1], InstructionsMarker);
          Ok(HookDetails(visualStyle, Strip(remaining[0]), Strip(remaining[1])))
        else Ok(HookDetails(visualStyle, Strip(parts[1]), ""))
    else Ok(HookDetails(FallbackVisual, FallbackAudio, text))
  }

  /** The same sections located by search: the visual style runs from the
      first `VISUAL_STYLE:` to the next one or the first `AUDIO_STYLE:`; the
      audio section runs from the first `AUDIO_STYLE:` to the next one, and
      is divided at its first `CREATOR_INSTRUCTIONS:` if it has one. */
  function Sections(text: string): Result<HookDetails, Exception>
  {
    if !(Contains(text, VisualMarker) && Contains(text, AudioMarker)) then
      Ok(HookDetails(FallbackVisual, FallbackAudio, text))
    else
      var head := Before(text, AudioMarker);
      if !Contains(head, VisualMarker) then Err(IndexError)
      else
        var visual := Strip(Before(After(head, VisualMarker), VisualMarker));
        var audio := Before(After(text, AudioMarker), AudioMarker);
        if Contains(audio, InstructionsMarker) then
          Ok(HookDetails(visual, Strip(Before(audio, InstructionsMarker)),
                         Strip(Before(After(audio, InstructionsMarker), InstructionsMarker))))
        else Ok(HookDetails(visual, Strip(audio), ""))
  }

  /** The splits find exactly the sections: `FormatHookDetails` and
      `Sections` agree on every text, failures included. */
  lemma FormatHookDetailsIsSections(text: string)
    ensures FormatHookDetails(text) == Sections(text)
  {
    if Contains(text, VisualMarker) && Contains(text, AudioMarker) {
      SplitPieces(text, AudioMarker);
      var head := Split(text, AudioMarker)[0];
      SplitPieces(head, VisualMarker);
      SplitHead(head, VisualMarker);
      var audio := Split(text, AudioMarker)[1];
      SplitPieces(audio, InstructionsMarker);
    }
  }

  /** With both markers present, the parse fails (IndexError) exactly when
      the first `VISUAL_STYLE:` comes after the first `AUDIO_STYLE:`. */
  lemma SectionsFailIff(text: string)
    requires Contains(text, VisualMarker) && Contains(text, AudioMarker)
    ensures Sections(text).Err? <==> IndexOf(text, AudioMarker) < IndexOf(text, VisualMarker)
    ensures Sections(text).Err? ==> Sections(text).error == IndexError
  {
    var a := IndexOf(text, AudioMarker);
    var v := IndexOf(text, VisualMarker);
    var head := Before(text, AudioMarker);
    if v < a {
      NoOverlap(text, a, v);
      assert head[v..v + |VisualMarker|] == text[v..v + |VisualMarker|];
      assert OccursAt(head, VisualMarker, v);
    } else {
      MarkersDiffer(text, a, v);
      forall j | OccursAt(head, VisualMarker, j) ensures false {
        assert head[j..j + |VisualMarker|] == text[j..j + |VisualMarker|];
        assert OccursAt(text, VisualMarker, j);
      }
    }
  }

  /** The sections are stripped, and the instructions are empty when the
      audio section has no instructions marker. */
  lemma SectionsStripped(text: string)
    requires Contains(text, VisualMarker) && Contains(text, AudioMarker)
    requires Sections(text).Ok?
    ensures var d := Sections(text).value;
      && Strip(d.visualStyle) == d.visualStyle && Strip(d.audioStyle) == d.audioStyle
      && Strip(d.creatorInstructions) == d.creatorInstructions
      && (!Contains(Before(After(text, AudioMarker), AudioMarker), InstructionsMarker) ==> d.creatorInstructions == "")
  {
    var head := Before(text, AudioMarker);
    StripIdempotent(Before(After(head, VisualMarker), VisualMarker));
    var audio := Before(After(text, AudioMarker), AudioMarker);
    StripIdempotent(audio);
    if Contains(audio, InstructionsMarker) {
      StripIdempotent(Before(audio, InstructionsMarker));
      StripIdempotent(Before(After(audio, InstructionsMarker), InstructionsMarker));
    } else {
      assert Strip("") == "";
    }
  }

  /** The two markers cannot start at the same position. */
  lemma MarkersDiffer(text: string, a: int, v: int)
    requires OccursAt(text, AudioMarker, a) && OccursAt(text, VisualMarker, v)
    ensures a != v
  {
    assert text[a] == text[a..a + |AudioMarker|][0] == 'A';
    assert text[v] == text[v..v + |VisualMarker|][0] == 'V';
  }

  /** An `AUDIO_STYLE:` after a `VISUAL_STYLE:` starts after its end. */
  lemma NoOverlap(text: string, a: int, v: int)
    requires OccursAt(text, AudioMarker, a) && OccursAt(text, VisualMarker, v)
    requires v < a
    ensures v + |VisualMarker| <= a
  {
    assert text[a] == text[a..a + |AudioMarker|][0] == 'A';
    assert text[a + 1] == text[a..a + |AudioMarker|][1] == 'U';
    assert forall i :: v <= i < v + |VisualMarker| ==> text[i] == text[v..v + |VisualMarker|][i - v];
    assert forall i :: 0 <= i < |VisualMarker| && VisualMarker[i] == 'A' ==> i == 4;
  }

  // --------------------------------------------------------------- truncation

  const MaxStyleWords: nat := 15

  /** `generate_visual_style` trims a reply of more than 15 words to its
      first 15, joined by single spaces. */
  function TruncateWords(response: string): string
  {
    var words := Words(response);
    if |words| > MaxStyleWords then Join(" ", words[..MaxStyleWords]) else response
  }

  /** A long reply keeps exactly its first 15 words; a short one is unchanged. */
  lemma TruncateWordsFacts(response: string)
    ensures |Words(response)| <= MaxStyleWords ==> TruncateWords(response) == response
    ensures |Words(response)| > MaxStyleWords ==> Words(TruncateWords(response)) == Words(response)[..MaxStyleWords]
    ensures |Words(TruncateWords(response))| <= MaxStyleWords
  {
    var ws := Words(response);
    if |ws| > MaxStyleWords {
      var first := ws[..MaxStyleWords];
      assert forall k :: 0 <= k < |first| ==> first[k] == ws[k];
      WordsJoin(first);
    }
  }

  const MaxTranscriptChars: nat := 500

  /** `generate_hook_analysis`: a falsy transcript becomes `''`, and one over
      500 characters its first 500 followed by `'...'`. */
  function TruncateTranscript(transcript: Option<string>): (t: string)
    ensures transcript.None? ==> t == ""
    ensures transcript.Some? && |transcript.value| <= MaxTranscriptChars ==> t == transcript.value
    ensures transcript.Some? && |transcript.value| > MaxTranscriptChars ==>
      |t| == MaxTranscriptChars + 3 && t[..MaxTranscriptChars] == transcript.value[..MaxTranscriptChars]
      && t[MaxTranscriptChars..] == "..."
  {
    var text := if transcript.Some? then transcript.value else "";
    if |text| <= MaxTranscriptChars then text else text[..MaxTranscriptChars] + "..."
  }

  // ----------------------------------------------------------- the replies

  const NoFrameError: string := "Error: Could not extract frame from video."
  const NoHookReply: string := "NO HOOK"
  const NoCaption: string := "No caption text detected on screen."

  /** `generate_screen_hook`: the reply, with `NO HOOK` mapped to the
      no-caption message, or an error string. */
  function ScreenHook<F>(frame: Option<F>, reply: Result<string, Exception>): (r: string)
    ensures frame.None? ==> r == NoFrameError
    ensures frame.Some? && reply.Err? ==> r == "Error: Caption extraction failed"
    ensures frame.Some? && reply == Ok(NoHookReply) ==> r == NoCaption
    ensures frame.Some? && reply.Ok? && reply.value != NoHookReply ==> r == reply.value
  {
    if frame.None? then NoFrameError
    else if reply.Err? then "Error: Caption extraction failed"
    else if reply.value == NoHookReply then NoCaption
    else reply.value
  }

  /** `generate_visual_style`: the reply cut to 15 words, or an error string. */
  function VisualStyle<F>(frame: Option<F>, reply: Result<string, Exception>): (r: string)
    ensures frame.None? ==> r == NoFrameError
    ensures frame.Some? && reply.Err? ==> r == "Error: Visual Style generation failed"
    ensures frame.Some? && reply.Ok? ==> r == TruncateWords(reply.value)
  {
    if frame.None? then NoFrameError
    else if reply.Err? then "Error: Visual Style generation failed"
    else TruncateWords(reply.value)
  }

  datatype ShootingStyle = ShootingStyle(visualStyleSummary: string, visualStyle: string,
                                         audioStyle: string, creatorInstructions: string)

  /** `generate_hook_analysis`. `styleReply` is the reply to the visual-style
      request; `analysisReply` gives the reply to the analysis request for
      the (truncated) transcript put into its prompt. A failed request or a
      failed parse gives the error style, which keeps the visual summary. */
  function HookAnalysis<F>(frame: Option<F>, transcript: Option<string>, styleReply: Result<string, Exception>,
                           analysisReply: string -> Result<string, Exception>): (s: ShootingStyle)
    ensures frame.None? ==> s == ShootingStyle(NoFrameError, NoFrameError, "Error: Could not analyze audio style.",
                                               "Error: Could not generate instructions.")
    ensures frame.Some? ==> s.visualStyleSummary == VisualStyle(frame, styleReply)
    ensures frame.Some? ==>
      var reply := analysisReply(TruncateTranscript(transcript));
      if reply.Ok? && FormatHookDetails(reply.value).Ok? then
        var d := FormatHookDetails(reply.value).value;
        s.visualStyle == d.visualStyle && s.audioStyle == d.audioStyle && s.creatorInstructions == d.creatorInstructions
      else
        s.visualStyle == "Error: Scene analysis failed" && s.audioStyle == "Error: Could not analyze audio style"
        && s.creatorInstructions == "Error: Could not generate instructions"
  {
    if frame.None? then
      ShootingStyle(NoFrameError, NoFrameError, "Error: Could not analyze audio style.", "Error: Could not generate instructions.")
    else
      var summary := VisualStyle(frame, styleReply);
      var reply := analysisReply(TruncateTranscript(transcript));
      var formatted := if reply.Ok? then FormatHookDetails(reply.value) else Err(reply.error);
      if formatted.Err? then
        ShootingStyle(summary, "Error: Scene analysis failed", "Error: Could not analyze audio style",
                      "Error: Could not generate instructions")
      else
        ShootingStyle(summary, formatted.value.visualStyle, formatted.value.audioStyle, formatted.value.creatorInstructions)
  }

  /** A reply whose `VISUAL_STYLE:` comes only after `AUDIO_STYLE:` makes the
      parse fail, and `generate_hook_analysis` returns the error style. */
  lemma MisorderedMarkersGiveErrorStyle<F>(frame: F, transcript: Option<string>, styleReply: Result<string, Exception>,
                                           analysisReply: string -> Result<string, Exception>)
    requires var reply := analysisReply(TruncateTranscript(transcript));
      && reply.Ok? && Contains(reply.value, VisualMarker) && Contains(reply.value, AudioMarker)
      && IndexOf(reply.value, AudioMarker) < IndexOf(reply.value, VisualMarker)
    ensures HookAnalysis(Some(frame), transcript, styleReply, analysisReply).visualStyle == "Error: Scene analysis failed"
  {
    var reply := analysisReply(TruncateTranscript(transcript)).value;
    FormatHookDetailsIsSections(reply);
    SectionsFailIff(reply);
  }
}
