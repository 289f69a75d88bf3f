/** Decoded JSON values, the decoder `json.loads` as a parameter, and the
    first-`{`/last-`}` span both `extract_json` variants cut out of a model
    response (app/utils/prompt.py, app/utils/video_utils.py). */
module JsonData {
  import opened Wrappers
  import opened Strings

  datatype Json =
    | JNull
    | JBool(b: bool)
    | JNum(n: real)
    | JStr(s: string)
    | JArray(items: seq<Json>)
    | JObject(fields: map<string, Json>)

  /** `json.loads`: the value a text decodes to, or None when it is not JSON
      (`JSONDecodeError`). */
  type Decoder = string -> Option<Json>

  /** Python's `key in data` for a decoded value: a key of an object, an
      element of a list, a substring of a string; any other value is not a
      container and raises TypeError. */
  function Member(key: string, data: Json): (r: Result<bool, Exception>)
    ensures data.JObject? ==> r == Ok(key in data.fields)
    ensures data.JArray? ==> r == Ok(JStr(key) in data.items)
    ensures data.JStr? ==> r == Ok(Contains(data.s, key))
    ensures r.Err? <==> data.JNull? || data.JBool? || data.JNum?
  {
    match data
    case JObject(fields) => Ok(key in fields)
    case JArray(items) => Ok(JStr(key) in items)
    case JStr(s) => Ok(Contains(s, key))
    case _ => Err(TypeError)
  }

  /** Python truthiness of a decoded value. */
  predicate Truthy(j: Json)
  {
    match j
    case JNull => false
    case JBool(b) => b
    case JNum(n) => n != 0.0
    case JStr(s) => s != ""
    case JArray(items) => items != []
    case JObject(fields) => fields != map[]
  }

  /** Python's `a or b`: `a` when it is truthy, otherwise `b` (unconverted). */
  function Or(a: Json, b: Json): (r: Json)
    ensures Truthy(r) <==> Truthy(a) || Truthy(b)
    ensures r == a || r == b
  {
    if Truthy(a) then a else b
  }

  /** `data[key]` on a decoded value: a field of an object, KeyError when the
      object lacks it, TypeError for any other value. */
  function Lookup(data: Json, key: string): (r: Result<Json, Exception>)
    ensures data.JObject? && key in data.fields ==> r == Ok(data.fields[key])
    ensures data.JObject? && key !in data.fields ==> r == Err(KeyError(key))
    ensures !data.JObject? ==> r == Err(TypeError)
  {
    if !data.JObject? then Err(TypeError)
    else if key in data.fields then Ok(data.fields[key])
    else Err(KeyError(key))
  }

  /** Python's `s[a:b]` for `0 <= a` and `b <= |s|`: empty when `b <= a`. */
  function Slice(s: string, a: nat, b: nat): (r: string)
    requires a <= |s| && b <= |s|
    ensures b <= a ==> r == ""
    ensures a < b ==> r == s[a..b]
  {
    if b <= a then "" else s[a..b]
  }

  /** The positions of a brace pair: the first `{` and one past the last `}`. */
  datatype Braces = Braces(start: nat, end: nat)

  /** `start_idx = find('{')` and `end_idx = rfind('}') + 1`, when both
      braces occur. */
  function BraceSpan(s: string): (r: Option<Braces>)
    ensures r.None? <==> '{' !in s || '}' !in s
    ensures r.Some? ==>
      && r.value.start < |s| && s[r.value.start] == '{' && '{' !in s[..r.value.start]
      && 1 <= r.value.end <= |s| && s[r.value.end - 1] == '}' && '}' !in s[r.value.end..]
  {
    var start := FindChar(s, '{');
    var end := RFindChar(s, '}') + 1;
    if start == -1 || end == 0 then None else Some(Braces(start, end))
  }

  /** The text `extract_json` hands to the decoder, or the ValueError raised
      when the response has no brace pair. */
  function Candidate(s: string): Result<string, Exception>
  {
    var span := BraceSpan(s);
    if span.None? then Err(ValueError("No JSON structure found in response"))
    else Ok(Strip(Slice(s, span.value.start, span.value.end)))
  }

  /** Without a brace pair the candidate is the ValueError, and only then. */
  lemma CandidateErr(s: string)
    ensures Candidate(s).Err? <==> '{' !in s || '}' !in s
    ensures Candidate(s).Err? ==> Candidate(s).error == ValueError("No JSON structure found in response")
  {
    var sp := BraceSpan(s);
    if sp.Some? {
      CandidateOfSpan(s, sp.value.start, sp.value.end);
    }
  }

  /** The candidate is the text from the first `{` to the last `}`
      inclusive, which `strip()` leaves alone. */
  lemma CandidateBraced(s: string, start: nat, end: nat)
    requires BraceSpan(s) == Some(Braces(start, end)) && start < end
    ensures Candidate(s) == Ok(s[start..end])
  {
    BraceEnds(s, start, end);
    CandidateOfSpan(s, start, end);
    StripSliceBraced(s, start, end);
  }

  lemma BraceEnds(s: string, start: nat, end: nat)
    requires BraceSpan(s) == Some(Braces(start, end))
    ensures start < |s| && s[start] == '{' && 1 <= end <= |s| && s[end - 1] == '}'
  {
  }

  lemma StripSliceBraced(s: string, start: nat, end: nat)
    requires start < end <= |s| && s[start] == '{' && s[end - 1] == '}'
    ensures Strip(Slice(s, start, end)) == s[start..end]
  {
    BracedSlice(s, start, end);
    StripBraced(s[start..end]);
  }

  /** `strip()` leaves a text from `{` to `}` alone. */
  lemma StripBraced(t: string)
    requires |t| > 0 && t[0] == '{' && t[|t| - 1] == '}'
    ensures Strip(t) == t
  {
    StripNoOp(t);
  }

  /** When the last `}` comes before the first `{` the candidate is empty. */
  lemma CandidateReversed(s: string, start: nat, end: nat)
    requires BraceSpan(s) == Some(Braces(start, end)) && end <= start
    ensures Candidate(s) == Ok("")
  {
    CandidateOfSpan(s, start, end);
    StripNoOp("");
  }

  /** With a brace span the candidate is its stripped slice. */
  lemma CandidateOfSpan(s: string, start: nat, end: nat)
    requires BraceSpan(s) == Some(Braces(start, end))
    ensures Candidate(s) == Ok(Strip(Slice(s, start, end)))
  {
  }

  /** A slice from a `{` to a `}` starts and ends with them. */
  lemma BracedSlice(s: string, start: nat, end: nat)
    requires start < end <= |s| && s[start] == '{' && s[end - 1] == '}'
    ensures var t := s[start..end]; |t| > 0 && t[0] == '{' && t[|t| - 1] == '}'
  {
  }
}
