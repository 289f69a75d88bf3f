/** `extract_json` of app/utils/video_utils.py: the `Prompt.ExtractJson`
    span extraction followed by a check for the keys `summary` and
    `key_moments`, written as `all(key in data for key in [...])`. Every
    exception is re-raised unchanged. */
module VideoUtils {
  import opened Wrappers
  import opened JsonData
  import Prompt

  const RequiredKeys: seq<string> := ["summary", "key_moments"]

  const MissingKeysError: Exception := ValueError("Invalid JSON structure: missing required keys")

  /** `all(key in data for key in keys)`, which stops at the first key that
      is absent and raises when `in` does. */
  function HasAll(data: Json, keys: seq<string>): (r: Result<bool, Exception>)
    ensures r == Ok(true) <==> forall k :: 0 <= k < |keys| ==> Member(keys[k], data) == Ok(true)
    ensures r.Err? ==> keys != [] && r == Member(keys[0], data)
  {
    if keys == [] then Ok(true)
    else
      var m := Member(keys[0], data);
      if m.Err? then Err(m.error)
      else if !m.value then Ok(false)
      else
        var rest := HasAll(data, keys[1..]);
        assert forall k :: 1 <= k < |keys| ==> keys[k] == keys[1..][k - 1];
        rest
  }

  /** The key check on a decoded value. */
  function Validate(data: Json): Result<Json, Exception>
  {
    var valid := HasAll(data, RequiredKeys);
    if valid.Err? then Err(valid.error)
    else if !valid.value then Err(MissingKeysError)
    else Ok(data)
  }

  /** A value passes exactly when both keys are members of it, and passes
      unchanged; an object passes exactly when it has both keys and
      otherwise fails with the validation error; a number, boolean or null
      raises TypeError. */
  lemma ValidateFacts(data: Json)
    ensures Validate(data).Ok? <==> Member("summary", data) == Ok(true) && Member("key_moments", data) == Ok(true)
    ensures Validate(data).Ok? ==> Validate(data) == Ok(data)
    ensures data.JObject? ==>
      && (Validate(data).Ok? <==> "summary" in data.fields && "key_moments" in data.fields)
      && (Validate(data).Err? ==> Validate(data).error == MissingKeysError)
    ensures data.JNull? || data.JBool? || data.JNum? ==> Validate(data) == Err(TypeError)
  {
    assert RequiredKeys[0] == "summary" && RequiredKeys[1] == "key_moments";
    assert RequiredKeys[1..] == ["key_moments"];
  }

  /** Extract as the other variant does, then validate: a failure there is
      re-raised, and a success here is the other variant's result. */
  function ExtractJson(response: string, decode: Decoder): (r: Result<Json, Exception>)
    ensures Prompt.ExtractJson(response, decode).Err? ==> r == Prompt.ExtractJson(response, decode)
    ensures Prompt.ExtractJson(response, decode).Ok? ==> r == Validate(Prompt.ExtractJson(response, decode).value)
  {
    var data := Prompt.ExtractJson(response, decode);
    if data.Err? then data else Validate(data.value)
  }
}
