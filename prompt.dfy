/** `extract_json` of app/utils/prompt.py: decode the first-`{`/last-`}`
    span of a model response. Every exception is re-raised unchanged. */
module Prompt {
  import opened Wrappers
  import opened JsonData

  function ExtractJson(response: string, decode: Decoder): (r: Result<Json, Exception>)
  {
    var candidate := Candidate(response);
    if candidate.Err? then Err(candidate.error)
    else if decode(candidate.value).None? then Err(JsonDecodeError)
    else Ok(decode(candidate.value).value)
  }

  /** A response without a brace pair raises ValueError; otherwise the result
      is the decoding of the candidate span, and JSONDecodeError when it does
      not decode. */
  lemma ExtractJsonFacts(response: string, decode: Decoder)
    ensures ('{' !in response || '}' !in response) <==>
      ExtractJson(response, decode) == Err(ValueError("No JSON structure found in response"))
    ensures '{' in response && '}' in response ==>
      && Candidate(response).Ok?
      && (decode(Candidate(response).value).None? <==> ExtractJson(response, decode) == Err(JsonDecodeError))
      && (decode(Candidate(response).value).Some? ==> ExtractJson(response, decode) == Ok(decode(Candidate(response).value).value))
  {
    var c := Candidate(response);
    assert c.Err? <==> BraceSpan(response).None?;
  }

  /** When the last `}` precedes the first `{` the span is empty, and since
      the empty text is not JSON the call raises JSONDecodeError. */
  lemma ReversedBracesFail(response: string, decode: Decoder)
    requires decode("") == None
    requires BraceSpan(response).Some? && BraceSpan(response).value.end <= BraceSpan(response).value.start
    ensures ExtractJson(response, decode) == Err(JsonDecodeError)
  {
    CandidateReversed(response, BraceSpan(response).value.start, BraceSpan(response).value.end);
  }

  /** A response that is exactly a decodable object, with text around it that
      holds no brace, yields that object. */
  lemma SurroundingTextIgnored(before: string, body: string, after: string, decode: Decoder)
    requires '{' !in before && '}' !in after
    requires |body| >= 2 && body[0] == '{' && body[|body| - 1] == '}'
    requires decode(body).Some?
    ensures ExtractJson(before + body + after, decode) == Ok(decode(body).value)
  {
    var s := before + body + after;
    assert s[|before|] == '{';
    assert s[..|before|] == before;
    assert s[|before| + |body| - 1] == '}';
    assert s[|before| + |body|..] == after;
    var span := BraceSpan(s).value;
    assert '{' in s[..|before| + 1];
    assert '}' in s[|before| + |body| - 1..];
    assert span.start == |before| && span.end == |before| + |body|;
    CandidateBraced(s, span.start, span.end);
    assert s[span.start..span.end] == body;
  }
}
