/** Request preparation and result folding of the generation service
    (services/geminiService.ts). The SDK call itself is an oracle: a function
    from the request that was built to what the provider answered. */
module Gemini {
  import opened Types

  const FlashModel := "gemini-2.5-flash"
  const ProModel := "gemini-3-pro-preview"
  const BaseInstruction := "You are a helpful AI assistant. Keep your answers concise, educational, and safe for kids."
  const ReasoningNote := " Use your reasoning capabilities to explain your thought process if asked."
  const ReasoningBudget: nat := 2048
  const ImageMime := "image/png"

  const MissingKeyMessage := "API Key is missing"
  const EmptyTextFallback := "I couldn't generate a response."
  const ApologyText := "Oops! My brain got a little tangled. Try again!"

  datatype Config = Config(model: string, systemInstruction: string, thinkingBudget: nat)

  datatype Part = ImagePart(mimeType: string, data: string) | TextPart(text: string)

  /** What is handed to the SDK: model, ordered parts, configuration. The
      thinking configuration is an optional member of the config object. */
  datatype Request = Request(model: string, parts: seq<Part>, systemInstruction: string, thinking: Option<nat>)

  /** What the SDK call does: it resolves with a text (undefined text is "")
      or it rejects. */
  datatype SdkReply = Replied(text: string) | Failed

  /** How the service's promise settles. */
  datatype Outcome = Resolved(response: Response) | Rejected(message: string)

  // ---------------------------------------------------------------------
  // String splitting, as `s.split(c)[0]` and the text after the first `c`

  /** `s.split(c)[0]`: the text before the first `c`, or all of `s`. */
  function FirstField(s: string, c: char): (r: string)
    ensures r <= s
    ensures c !in r
    ensures r == s || s[|r|] == c
  {
    if s == [] then []
    else if s[0] == c then []
    else [s[0]] + FirstField(s[1..], c)
  }

  /** The text after the first `c`, absent when `s` has no `c`. */
  function AfterFirst(s: string, c: char): (r: Option<string>)
    ensures r.None? <==> c !in s
    ensures r.Some? ==> s == FirstField(s, c) + [c] + r.value
  {
    if s == [] then None
    else if s[0] == c then Some(s[1..])
    else AfterFirst(s[1..], c)
  }

  lemma {:induction false} FirstFieldOf(a: string, c: char, b: string)
    requires c !in a
    ensures FirstField(a + [c] + b, c) == a
    ensures AfterFirst(a + [c] + b, c) == Some(b)
  {
    if a != [] {
      assert (a + [c] + b)[1..] == a[1..] + [c] + b;
      FirstFieldOf(a[1..], c, b);
    } else {
      assert (a + [c] + b)[1..] == b;
    }
  }

  lemma FirstFieldWhole(a: string, c: char)
    requires c !in a
    ensures FirstField(a, c) == a
  {
  }

  /** `imageBase64.split(',')[1] || imageBase64`: the field between the first
      and the second comma, unless there is none or it is empty. */
  function StripDataUrl(s: string): string
  {
    match AfterFirst(s, ',')
    case None => s
    case Some(rest) =>
      var field := FirstField(rest, ',');
      if field == "" then s else field
  }

  /** A string without a comma is sent as it is. */
  lemma StripWithoutComma(s: string)
    requires ',' !in s
    ensures StripDataUrl(s) == s
  {
  }

  /** A data URL `header,payload` yields its payload; anything after a second
      comma is dropped. */
  lemma StripDataUrlPayload(header: string, payload: string, tail: string)
    requires ',' !in header && ',' !in payload && payload != ""
    requires tail == "" || tail[0] == ','
    ensures StripDataUrl(header + "," + payload + tail) == payload
  {
    assert header + "," + payload + tail == header + [','] + (payload + tail);
    FirstFieldOf(header, ',', payload + tail);
    if tail == "" {
      assert payload + tail == payload;
      FirstFieldWhole(payload, ',');
    } else {
      assert payload + tail == payload + [','] + tail[1..];
      FirstFieldOf(payload, ',', tail[1..]);
    }
  }

  /** An empty field after the first comma keeps the whole string. */
  lemma StripEmptyField(header: string, tail: string)
    requires ',' !in header
    requires tail == "" || tail[0] == ','
    ensures StripDataUrl(header + "," + tail) == header + "," + tail
  {
    assert header + "," + tail == header + [','] + tail;
    FirstFieldOf(header, ',', tail);
  }

  // ---------------------------------------------------------------------
  // Configuration and request

  /** Model, instruction and thinking budget chosen from the capability. */
  function SelectConfig(capability: Capability): (c: Config)
    ensures c.thinkingBudget > 0 <==> capability == Reasoning
    ensures capability == Reasoning ==> c.model == ProModel && c.thinkingBudget == 2048
    ensures capability != Reasoning ==> c.model == FlashModel && c.thinkingBudget == 0
    ensures BaseInstruction <= c.systemInstruction
    ensures c.systemInstruction == BaseInstruction <==> capability != Reasoning
  {
    if capability == Reasoning then
      Config(ProModel, BaseInstruction + ReasoningNote, ReasoningBudget)
    else
      Config(FlashModel, BaseInstruction, 0)
  }

  /** The parts array: an inline image when one is given and the capability
      (or the chosen model) accepts it, then the prompt. */
  function BuildParts(prompt: string, image: Option<string>, capability: Capability, model: string): seq<Part>
  {
    (if Truthy(image) && (capability == Vision || model == FlashModel)
     then [ImagePart(ImageMime, StripDataUrl(image.value))]
     else [])
    + [TextPart(prompt)]
  }

  /** The request the service hands to the SDK. */
  function BuildRequest(prompt: string, image: Option<string>, capability: Capability): (q: Request)
    ensures q.model == SelectConfig(capability).model
    ensures q.systemInstruction == SelectConfig(capability).systemInstruction
    ensures q.thinking.Some? <==> capability == Reasoning
    ensures q.thinking.Some? ==> q.thinking.value == 2048
    ensures 1 <= |q.parts| <= 2
    ensures q.parts[|q.parts| - 1] == TextPart(prompt)
    ensures |q.parts| == 2 <==> Truthy(image) && capability != Reasoning
    ensures |q.parts| == 2 ==> q.parts[0] == ImagePart(ImageMime, StripDataUrl(image.value))
  {
    var c := SelectConfig(capability);
    Request(c.model, BuildParts(prompt, image, capability, c.model), c.systemInstruction,
            if c.thinkingBudget > 0 then Some(c.thinkingBudget) else None)
  }

  // ---------------------------------------------------------------------
  // Results

  /** Three illustrative bars: the first word of the answer (or "Next"),
      "maybe" and "other", with values drawn from three random numbers. */
  function MockProbabilities(text: string, r0: real, r1: real, r2: real): (ps: seq<Probability>)
    requires 0.0 <= r0 < 1.0 && 0.0 <= r1 < 1.0 && 0.0 <= r2 < 1.0
    ensures |ps| == 3
    ensures ps[0].name == (if FirstField(text, ' ') == "" then "Next" else FirstField(text, ' '))
    ensures ps[1].name == "maybe" && ps[2].name == "other"
    ensures 0.85 <= ps[0].value < 0.95 && 0.05 <= ps[1].value < 0.1 && 0.01 <= ps[2].value < 0.03
    ensures ps[0].value > ps[1].value > ps[2].value
  {
    var first := FirstField(text, ' ');
    [ Probability(if first == "" then "Next" else first, 0.85 + r0 * 0.1),
      Probability("maybe", 0.05 + r1 * 0.05),
      Probability("other", 0.01 + r2 * 0.02) ]
  }

  /** generateLLMResponse: reject without a key, otherwise call the SDK and
      fold its answer (or its failure) into a response. */
  function GenerateLLMResponse(hasApiKey: bool, prompt: string, image: Option<string>, capability: Capability,
                               sdk: Request -> SdkReply, r0: real, r1: real, r2: real): (o: Outcome)
    requires 0.0 <= r0 < 1.0 && 0.0 <= r1 < 1.0 && 0.0 <= r2 < 1.0
    ensures o.Rejected? <==> !hasApiKey
    ensures o.Rejected? ==> o.message == MissingKeyMessage
    ensures o.Resolved? ==> o.response.text != ""
    ensures hasApiKey && sdk(BuildRequest(prompt, image, capability)).Failed? ==>
              o == Resolved(Response(ApologyText, []))
    ensures hasApiKey && sdk(BuildRequest(prompt, image, capability)).Replied? ==>
              var t := sdk(BuildRequest(prompt, image, capability)).text;
              o.Resolved? && o.response.text == (if t == "" then EmptyTextFallback else t)
              && o.response.probabilities == MockProbabilities(o.response.text, r0, r1, r2)
  {
    if !hasApiKey then Rejected(MissingKeyMessage)
    else
      match sdk(BuildRequest(prompt, image, capability))
      case Failed => Resolved(Response(ApologyText, []))
      case Replied(t) =>
        var text := if t == "" then EmptyTextFallback else t;
        Resolved(Response(text, MockProbabilities(text, r0, r1, r2)))
  }
}
