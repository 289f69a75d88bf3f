/** `get_audio_hook` (app/utils/transcript.py): the first sentence of a
    transcript. Sentences are split with the regular expression
    `(?<=[.!?])\s+`: a break is a run of white space just after a `.`, `!`
    or `?`. */
module Transcript {
  import opened Wrappers
  import opened Strings

  const NoScriptError: string := "Error: No valid script to extract hook from."
  const NoSentenceError: string := "Error: Could not identify sentences in the script."

  predicate Terminator(c: char)
  {
    c == '.' || c == '!' || c == '?'
  }

  /** The pattern matches at `p`: a terminator just before it, white space at it. */
  predicate BreakAt(s: string, p: int)
  {
    1 <= p < |s| && Terminator(s[p - 1]) && IsSpace(s[p])
  }

  /** The leftmost match at or after `from`, or `|s|` when there is none. */
  function FirstBreak(s: string, from: nat): (p: nat)
    requires from <= |s|
    ensures from <= p <= |s|
    ensures p < |s| ==> BreakAt(s, p)
    ensures forall q :: from <= q < p ==> !BreakAt(s, q)
    decreases |s| - from
  {
    if from == |s| then |s|
    else if BreakAt(s, from) then from
    else FirstBreak(s, from + 1)
  }

  /** The length of the white-space run that `\s+` consumes from `p`. */
  function SpaceRun(s: string, p: nat): (n: nat)
    requires p <= |s|
    ensures p + n <= |s|
    ensures forall i :: p <= i < p + n ==> IsSpace(s[i])
    ensures p + n < |s| ==> !IsSpace(s[p + n])
    decreases |s| - p
  {
    if p < |s| && IsSpace(s[p]) then 1 + SpaceRun(s, p + 1) else 0
  }

  /** `re.split(r'(?<=[.!?])\s+', s)`: the pieces between matches, scanned
      left to right. A match consumes its whole white-space run, so the next
      search starts after it. */
  function Sentences(s: string): (parts: seq<string>)
    ensures |parts| >= 1
    ensures parts[0] == s[..FirstBreak(s, 0)]
    decreases |s|
  {
    var p := FirstBreak(s, 0);
    if p == |s| then [s]
    else
      var rest := p + SpaceRun(s, p);
      [s[..p]] + Sentences(s[rest..])
  }

  /** No piece of the split contains a break of its own. */
  lemma {:induction false} SentencesHaveNoBreak(s: string)
    ensures forall k, q :: 0 <= k < |Sentences(s)| ==> !BreakAt(Sentences(s)[k], q)
    decreases |s|
  {
    var p := FirstBreak(s, 0);
    forall q ensures !BreakAt(s[..p], q) {
      if BreakAt(s[..p], q) {
        assert BreakAt(s, q);
      }
    }
    if p < |s| {
      var rest := p + SpaceRun(s, p);
      SentencesHaveNoBreak(s[rest..]);
      var parts := Sentences(s);
      assert parts == [s[..p]] + Sentences(s[rest..]);
      forall k, q | 0 <= k < |parts| ensures !BreakAt(parts[k], q) {
        if k > 0 {
          assert parts[k] == Sentences(s[rest..])[k - 1];
        }
      }
    }
  }

  /** `get_audio_hook`. */
  function AudioHook(script: Option<string>): string
  {
    if script.None? || script.value == "" || StartsWith(script.value, "Error:") then NoScriptError
    else
      var sentences := Sentences(script.value);
      if sentences == [] then NoSentenceError
      else Strip(sentences[0])
  }

  /** What the hook is: the error message for a missing, empty or error
      script; otherwise the stripped text before the first break, which is
      the whole stripped script when there is no break. The `if not
      sentences` branch is never taken: the split always yields a piece. */
  lemma AudioHookFacts(script: Option<string>)
    ensures script.None? || script == Some("") ==> AudioHook(script) == NoScriptError
    ensures script.Some? && StartsWith(script.value, "Error:") ==> AudioHook(script) == NoScriptError
    ensures script.Some? && script.value != "" && !StartsWith(script.value, "Error:") ==>
      && AudioHook(script) == Strip(script.value[..FirstBreak(script.value, 0)])
      && ((forall q :: !BreakAt(script.value, q)) ==> AudioHook(script) == Strip(script.value))
  {
    if script.Some? && script.value != "" && !StartsWith(script.value, "Error:") {
      var s := script.value;
      var p := FirstBreak(s, 0);
      if forall q :: !BreakAt(s, q) {
        assert p == |s|;
        assert s[..p] == s;
      }
    }
  }

  /** A piece of the script that ends before the first break (as the hook
      does) contains no terminator followed by white space. */
  lemma HookHasNoBreak(s: string, p: nat, r: string, i: int)
    requires p == FirstBreak(s, 0)
    requires OccursAt(s[..p], r, i)
    ensures forall j :: 0 <= j < |r| - 1 ==> !(Terminator(r[j]) && IsSpace(r[j + 1]))
  {
    forall j | 0 <= j < |r| - 1 ensures !(Terminator(r[j]) && IsSpace(r[j + 1])) {
      assert r[j] == s[i + j] && r[j + 1] == s[i + j + 1];
      assert !BreakAt(s, i + j + 1);
    }
  }

  /** The hook of a valid script has no sentence break inside it. */
  lemma HookIsOneSentence(script: string)
    requires script != "" && !StartsWith(script, "Error:")
    ensures var h := AudioHook(Some(script));
      forall j :: 0 <= j < |h| - 1 ==> !(Terminator(h[j]) && IsSpace(h[j + 1]))
  {
    var p := FirstBreak(script, 0);
    var r := Strip(script[..p]);
    StripOccurs(script[..p]);
    HookHasNoBreak(script, p, r, |script[..p]| - |LStrip(script[..p])|);
  }
}
