/** The client `LlmAgentService` (app/services/client/llm_agent_service.py).
    Its `format_hook_details`, `generate_screen_hook`,
    `generate_visual_style` and `generate_hook_analysis` repeat those of
    app/services/llm_agent_service.py line for line and are modelled once,
    in `LlmAgent`. This module models what is its own: the chunked
    style-feature loop and the content lists sent to the model. Each model
    reply is a parameter: the decoded JSON (`extract_json` of
    app/utils/prompt.py) or the exception the request raised. */
module ClientLlmAgent {
  import opened Wrappers
  import opened JsonData
  import opened Strings
  import Frames
  import Windows

  // ------------------------------------------------------------- chunking

  const ChunkSize: nat := 5

  function Min(a: int, b: int): int
  {
    if a <= b then a else b
  }

  /** `[items[x:x + 5] for x in range(0, len(items), 5)]`: as many chunks as
      the ceiling of a fifth of the items. */
  function Chunks<T>(items: seq<T>): (cs: seq<seq<T>>)
    ensures |cs| == (|items| + ChunkSize - 1) / ChunkSize
    decreases |items|
  {
    if |items| <= ChunkSize then (if items == [] then [] else [items])
    else [items[..ChunkSize]] + Chunks(items[ChunkSize..])
  }

  /** Chunk `k` is the slice `items[5k : 5k + 5]`. */
  lemma {:induction false} ChunkAt<T>(items: seq<T>, k: nat)
    requires k < |Chunks(items)|
    ensures ChunkSize * k < |items|
    ensures Chunks(items)[k] == items[ChunkSize * k..Min(ChunkSize * k + ChunkSize, |items|)]
    decreases |items|
  {
    if |items| > ChunkSize && k > 0 {
      var rest := items[ChunkSize..];
      ChunkAt(rest, k - 1);
      assert Chunks(items)[k] == Chunks(rest)[k - 1];
      var a := ChunkSize * (k - 1);
      var b := Min(a + ChunkSize, |rest|);
      assert ChunkSize * k == ChunkSize + a;
      assert Min(ChunkSize * k + ChunkSize, |items|) == ChunkSize + b;
      DropSlice(items, ChunkSize, a, b);
    }
  }

  /** A slice of a suffix is a slice of the whole, shifted. */
  lemma DropSlice<T>(items: seq<T>, d: nat, a: nat, b: nat)
    requires d <= |items| && a <= b <= |items| - d
    ensures items[d..][a..b] == items[d + a..d + b]
  {
    var l := items[d..][a..b];
    var r := items[d + a..d + b];
    assert |l| == |r|;
    forall i | 0 <= i < |l| ensures l[i] == r[i] {
      assert l[i] == items[d + a + i];
    }
  }

  /** Every chunk holds between one and five items, and together they are
      the items in order. */
  lemma {:induction false} ChunksFacts<T>(items: seq<T>)
    ensures forall k :: 0 <= k < |Chunks(items)| ==> 1 <= |Chunks(items)[k]| <= ChunkSize
    ensures Concat(Chunks(items)) == items
    decreases |items|
  {
    if |items| > ChunkSize {
      ChunksFacts(items[ChunkSize..]);
      var rest := Chunks(items[ChunkSize..]);
      assert Chunks(items) == [items[..ChunkSize]] + rest;
      assert ([items[..ChunkSize]] + rest)[1..] == rest;
      assert items == items[..ChunkSize] + items[ChunkSize..];
    } else if items != [] {
      assert Concat([items]) == items + Concat([]);
    }
  }

  function Concat<T>(xss: seq<seq<T>>): seq<T>
  {
    if xss == [] then [] else xss[0] + Concat(xss[1..])
  }

  // ------------------------------------------------------------- the flags

  /** The three accumulated flags, as the values the replies held. */
  datatype Flags = Flags(face: Json, hand: Json, product: Json)

  const NoFlags: Flags := Flags(JBool(false), JBool(false), JBool(false))

  /** `x or response[key]`: the reply is read only while `x` is falsy. */
  function OrField(x: Json, response: Json, key: string): (r: Result<Json, Exception>)
    ensures Truthy(x) ==> r == Ok(x)
    ensures !Truthy(x) ==> r == Lookup(response, key)
  {
    if Truthy(x) then Ok(x) else Lookup(response, key)
  }

  /** One reply folded into the flags. A flag once truthy keeps its value. */
  function Update(f: Flags, response: Json): (r: Result<Flags, Exception>)
    ensures r.Ok? ==>
      && (Truthy(f.face) ==> r.value.face == f.face)
      && (Truthy(f.hand) ==> r.value.hand == f.hand)
      && (Truthy(f.product) ==> r.value.product == f.product)
  {
    var face := OrField(f.face, response, "face_visible");
    if face.Err? then Err(face.error)
    else
      var hand := OrField(f.hand, response, "hand_visible");
      if hand.Err? then Err(hand.error)
      else
        var product := OrField(f.product, response, "product_visible");
        if product.Err? then Err(product.error)
        else Ok(Flags(face.value, hand.value, product.value))
  }

  /** `if face_visible and product_visible: break`. */
  predicate Done(f: Flags)
  {
    Truthy(f.face) && Truthy(f.product)
  }

  /** The loop from chunk `i` on, holding flags `f`: the final flags and the
      number of chunks sent, or the exception of the first failing chunk. */
  function ScanFrom<I>(chunks: seq<seq<I>>, i: nat, f: Flags, respond: seq<I> -> Result<Json, Exception>): (r: Result<(Flags, nat), Exception>)
    requires i <= |chunks|
    ensures r.Ok? ==> i <= r.value.1 <= |chunks|
    ensures r.Ok? && i < |chunks| ==> i < r.value.1
    decreases |chunks| - i
  {
    if i == |chunks| then Ok((f, i))
    else
      var reply := respond(chunks[i]);
      if reply.Err? then Err(reply.error)
      else
        var g := Update(f, reply.value);
        if g.Err? then Err(g.error)
        else if Done(g.value) then Ok((g.value, i + 1))
        else ScanFrom(chunks, i + 1, g.value, respond)
  }

  /** What the loop ends with: it stops at the end or at the first chunk
      after which face and product are both truthy, and a flag truthy on
      entry keeps its value. */
  lemma {:induction false} ScanFromFacts<I>(chunks: seq<seq<I>>, i: nat, f: Flags, respond: seq<I> -> Result<Json, Exception>)
    requires i <= |chunks|
    requires !Done(f) || i == |chunks|
    ensures var r := ScanFrom(chunks, i, f, respond);
      r.Ok? ==>
        && (r.value.1 < |chunks| ==> Done(r.value.0))
        && (r.value.1 > i ==> (Done(r.value.0) || r.value.1 == |chunks|))
        && (Truthy(f.face) ==> r.value.0.face == f.face)
        && (Truthy(f.hand) ==> r.value.0.hand == f.hand)
        && (Truthy(f.product) ==> r.value.0.product == f.product)
    decreases |chunks| - i
  {
    if i < |chunks| {
      var reply := respond(chunks[i]);
      if reply.Ok? && Update(f, reply.value).Ok? && !Done(Update(f, reply.value).value) {
        ScanFromFacts(chunks, i + 1, Update(f, reply.value).value, respond);
      }
    }
  }

  /** Chunks after the one that ends the loop are never sent: any chunk list
      that agrees up to there gives the same result. */
  lemma {:induction false} LaterChunksUnsent<I>(chunks: seq<seq<I>>, other: seq<seq<I>>, i: nat, f: Flags,
                                                respond: seq<I> -> Result<Json, Exception>)
    requires i <= |chunks| && i <= |other| && !Done(f)
    requires ScanFrom(chunks, i, f, respond).Ok?
    requires Done(ScanFrom(chunks, i, f, respond).value.0)
    requires ScanFrom(chunks, i, f, respond).value.1 <= |other|
    requires forall k :: i <= k < ScanFrom(chunks, i, f, respond).value.1 ==> other[k] == chunks[k]
    ensures ScanFrom(other, i, f, respond) == ScanFrom(chunks, i, f, respond)
    decreases |chunks| - i
  {
    if i < |chunks| {
      var reply := respond(chunks[i]);
      assert other[i] == chunks[i];
      if reply.Ok? && Update(f, reply.value).Ok? && !Done(Update(f, reply.value).value) {
        LaterChunksUnsent(chunks, other, i + 1, Update(f, reply.value).value, respond);
      }
    }
  }

  // --------------------------------------------------- generate_style_features

  /** The result dictionary; None is Python's None. */
  datatype StyleFeatures = StyleFeatures(creatorVisible: Option<string>, productVisible: Option<Json>)

  const NoStyle: StyleFeatures := StyleFeatures(None, None)

  /** The creator label: a visible face wins over hands. */
  function CreatorLabel(f: Flags): (s: string)
    ensures Truthy(f.face) ==> s == "Face is visible"
    ensures !Truthy(f.face) && Truthy(f.hand) ==> s == "Only hands"
    ensures !Truthy(f.face) && !Truthy(f.hand) ==> s == "No"
  {
    if Truthy(f.face) then "Face is visible" else if Truthy(f.hand) then "Only hands" else "No"
  }

  /** The features for the outcome of the loop: both None on an exception. */
  function StyleOf(r: Result<(Flags, nat), Exception>): StyleFeatures
  {
    if r.Err? then NoStyle else StyleFeatures(Some(CreatorLabel(r.value.0)), Some(r.value.0.product))
  }

  /** `[frame_to_base64(keyframe[2]) for keyframe in keyframes]`, the
      encoding left abstract. */
  function Images<F>(keyframes: seq<Frames.Keyframe<F>>): (images: seq<F>)
    ensures |images| == |keyframes|
    ensures forall i :: 0 <= i < |keyframes| ==> images[i] == keyframes[i].image
  {
    seq(|keyframes|, i requires 0 <= i < |keyframes| => keyframes[i].image)
  }

  /** `generate_style_features`: no keyframes gives both fields None without
      any request; otherwise the chunks of five images are sent in order
      until face and product are both seen. */
  method GenerateStyleFeatures<F>(keyframes: Option<seq<Frames.Keyframe<F>>>, respond: seq<F> -> Result<Json, Exception>)
    returns (r: StyleFeatures)
    ensures keyframes.None? ==> r == NoStyle
    ensures keyframes.Some? ==> r == StyleOf(ScanFrom(Chunks(Images(keyframes.value)), 0, NoFlags, respond))
  {
    if keyframes.None? {
      return NoStyle;
    }
    var imageContents := Images(keyframes.value);
    var chunks := Chunks(imageContents);
    var faceVisible, handVisible, productVisible := JBool(false), JBool(false), JBool(false);
    ghost var outcome := ScanFrom(chunks, 0, NoFlags, respond);
    var i := 0;
    while i < |chunks|
      invariant 0 <= i <= |chunks|
      invariant outcome == ScanFrom(chunks, i, Flags(faceVisible, handVisible, productVisible), respond)
      decreases |chunks| - i
    {
      var response := respond(chunks[i]);
      if response.Err? {
        return NoStyle;
      }
      var face := OrField(faceVisible, response.value, "face_visible");
      if face.Err? {
        return NoStyle;
      }
      var hand := OrField(handVisible, response.value, "hand_visible");
      if hand.Err? {
        return NoStyle;
      }
      var product := OrField(productVisible, response.value, "product_visible");
      if product.Err? {
        return NoStyle;
      }
      faceVisible, handVisible, productVisible := face.value, hand.value, product.value;
      if Truthy(faceVisible) && Truthy(productVisible) {
        assert outcome == Ok((Flags(faceVisible, handVisible, productVisible), i + 1));
        break;
      }
      i := i + 1;
    }
    r := StyleFeatures(Some(CreatorLabel(Flags(faceVisible, handVisible, productVisible))), Some(productVisible));
  }

  // ------------------------------------------------------------ content lists

  /** A content block of a request; the texts the f-strings render are kept
      as their fields. */
  datatype Block<F> =
    | Text(text: string)
    | MomentHeader(frameNumber: int, timestamp: real)
    | MomentTitle(frameNumber: int)
    | Image(frame: F)
    | AudioWindow(windowStart: real, windowEnd: real, transcript: Option<string>)

  /** The summary prompt: `{caption}` replaced by the caption, `""` for None. */
  function SummaryPrompt(template: string, caption: Option<string>): string
  {
    Replace(template, "{caption}", if caption.Some? then caption.value else "")
  }

  /** `generate_summary`'s content: the prompt, then for each keyframe in
      order its header, its image and its audio window. */
  method SummaryContent<F>(template: string, caption: Option<string>, keyframes: seq<Windows.KeyframeContext<F>>)
    returns (content: seq<Block<F>>)
    ensures |content| == 1 + 3 * |keyframes|
    ensures content[0] == Text(SummaryPrompt(template, caption))
    ensures forall i :: 0 <= i < |keyframes| ==>
      && content[1 + 3 * i] == MomentHeader(keyframes[i].frameNumber, keyframes[i].timestamp)
      && content[2 + 3 * i] == Image(keyframes[i].image)
      && content[3 + 3 * i] == AudioWindow(keyframes[i].windowStart, keyframes[i].windowEnd, keyframes[i].audioTranscript)
  {
    content := [Text(SummaryPrompt(template, caption))];
    for j := 0 to |keyframes|
      invariant |content| == 1 + 3 * j
      invariant content[0] == Text(SummaryPrompt(template, caption))
      invariant forall i :: 0 <= i < j ==>
        && content[1 + 3 * i] == MomentHeader(keyframes[i].frameNumber, keyframes[i].timestamp)
        && content[2 + 3 * i] == Image(keyframes[i].image)
        && content[3 + 3 * i] == AudioWindow(keyframes[i].windowStart, keyframes[i].windowEnd, keyframes[i].audioTranscript)
    {
      var kf := keyframes[j];
      content := content + [MomentHeader(kf.frameNumber, kf.timestamp), Image(kf.image),
                            AudioWindow(kf.windowStart, kf.windowEnd, kf.audioTranscript)];
    }
  }

  /** `generate_visual_features`'s content: the prompt, then for each
      keyframe in order its title and its image. */
  method VisualFeaturesContent<F>(prompt: string, keyframes: seq<Windows.KeyframeContext<F>>)
    returns (content: seq<Block<F>>)
    ensures |content| == 1 + 2 * |keyframes|
    ensures content[0] == Text(prompt)
    ensures forall i :: 0 <= i < |keyframes| ==>
      content[1 + 2 * i] == MomentTitle(keyframes[i].frameNumber) && content[2 + 2 * i] == Image(keyframes[i].image)
  {
    content := [Text(prompt)];
    for j := 0 to |keyframes|
      invariant |content| == 1 + 2 * j
      invariant content[0] == Text(prompt)
      invariant forall i :: 0 <= i < j ==>
        content[1 + 2 * i] == MomentTitle(keyframes[i].frameNumber) && content[2 + 2 * i] == Image(keyframes[i].image)
    {
      content := content + [MomentTitle(keyframes[j].frameNumber), Image(keyframes[j].image)];
    }
  }

  const EmptyObject: Json := JObject(map[])

  /** `generate_summary`'s result: the reply's `summary`, or `{}` when the
      request fails or the reply has no such field. */
  function Summary(reply: Result<Json, Exception>): (s: Json)
    ensures reply.Ok? && reply.value.JObject? && "summary" in reply.value.fields ==> s == reply.value.fields["summary"]
    ensures reply.Err? || !reply.value.JObject? || "summary" !in reply.value.fields ==> s == EmptyObject
  {
    if reply.Err? then EmptyObject
    else
      var summary := Lookup(reply.value, "summary");
      if summary.Err? then EmptyObject else summary.value
  }
}
