/**
 * The `/api/chat` handler: validates the prompt, calls the generation provider once, and turns
 * the provider's answer (block reason, finish reason, safety ratings, first text part) into an
 * HTTP status and a JSON body, by a fixed order of precedence.
 */
module ChatHandler {
  import opened Wire
  import opened JsStrings

  /** One entry of `candidates[0].safetyRatings`. */
  datatype Rating = Rating(category: string, probability: string)

  /**
   * What the provider returned, reduced to the fields the handler reads: `promptFeedback.blockReason`,
   * `candidates[0].finishReason`, `candidates[0].safetyRatings` and `candidates[0].content.parts[0].text`.
   * `None` stands for `undefined` or `null` anywhere along the optional chain.
   */
  datatype Generation = Generation(
    blockReason: Option<string>,
    finishReason: Option<string>,
    safetyRatings: Option<seq<Rating>>,
    text: Option<string>)

  /** The awaited `generateContent` call either returns or throws; the thrown message is never shown. */
  datatype Upstream = Returned(generation: Generation) | Threw(message: string)

  /** The handler's outcomes, one per kind of reply. */
  datatype ChatOutcome =
    | InvalidPrompt
    | Blocked(reason: string)
    | GenerationFailed(reason: string, detail: string)
    | ExtractionFailed
    | UpstreamError
    | Success(text: string)

  datatype ChatReply = ChatReply(status: nat, body: ChatBody)

  const StopReason := "STOP"
  const MaxTokensReason := "MAX_TOKENS"
  const SafetyReason := "SAFETY"

  const PromptRequiredMessage := "Prompt is required and must be a non-empty string."
  const BlockedPrefix := "Request blocked by safety settings: "
  const FailedPrefix := "Generation failed or stopped: "
  const DetailPrefix := " Harmful categories detected: "
  const ExtractionFailedMessage := "Failed to extract valid text content from Gemini response."
  const UpstreamErrorMessage := "Server error while communicating with Gemini API."

  /** The prompt guard: a string that is not empty after trimming. */
  predicate AcceptedPrompt(prompt: Field) {
    prompt.Text? && prompt.s != "" && Trim(prompt.s) != ""
  }

  /** A finish reason that stops the handler before text extraction: present, and neither STOP nor MAX_TOKENS. */
  predicate AbnormalFinish(finish: Option<string>) {
    Truthy(finish) && finish.value != StopReason && finish.value != MaxTokensReason
  }

  /** The filter of the SAFETY detail: probability neither NEGLIGIBLE nor LOW. */
  predicate IsHarmful(r: Rating) {
    r.probability != "NEGLIGIBLE" && r.probability != "LOW"
  }

  /** `ratings.filter(IsHarmful)`. */
  function Harmful(ratings: seq<Rating>): (r: seq<Rating>)
    ensures |r| <= |ratings|
    ensures forall k :: 0 <= k < |r| ==> IsHarmful(r[k]) && r[k] in ratings
    ensures r == [] <==> forall k :: 0 <= k < |ratings| ==> !IsHarmful(ratings[k])
  {
    if ratings == [] then []
    else
      var rest := Harmful(ratings[1..]);
      assert forall k :: 1 <= k < |ratings| ==> ratings[k] == ratings[1..][k - 1];
      if IsHarmful(ratings[0]) then [ratings[0]] + rest else rest
  }

  /** The filter keeps the order of the ratings: filtering a concatenation filters each part. */
  lemma {:induction false} HarmfulDistributes(a: seq<Rating>, b: seq<Rating>)
    ensures Harmful(a + b) == Harmful(a) + Harmful(b)
  {
    if a == [] {
      assert a + b == b;
    } else {
      assert (a + b)[1..] == a[1..] + b;
      HarmfulDistributes(a[1..], b);
    }
  }

  /** Filtering one rating keeps it exactly when it is harmful. */
  lemma HarmfulOfOne(r: Rating)
    ensures Harmful([r]) == if IsHarmful(r) then [r] else []
  {
    assert [r][1..] == [];
  }

  /** `${r.category}(${r.probability})`. */
  function Label(r: Rating): (s: string)
    ensures |s| >= 2 && s[|s| - 1] == ')'
  {
    r.category + "(" + r.probability + ")"
  }

  /** `.map(Label)`. */
  function Labels(ratings: seq<Rating>): (r: seq<string>)
    ensures |r| == |ratings|
    ensures forall k :: 0 <= k < |r| ==> r[k] == Label(ratings[k])
  {
    if ratings == [] then [] else [Label(ratings[0])] + Labels(ratings[1..])
  }

  /** `parts.join(sep)`. */
  function Join(parts: seq<string>, sep: string): (r: string)
    ensures |parts| == 1 ==> r == parts[0]
    ensures (forall k :: 0 <= k < |parts| ==> parts[k] != "") ==> (r == "" <==> parts == [])
  {
    if parts == [] then ""
    else if |parts| == 1 then parts[0]
    else parts[0] + sep + Join(parts[1..], sep)
  }

  /** Joining one more part appends the separator and then that part. */
  lemma {:induction false} JoinSnoc(parts: seq<string>, p: string, sep: string)
    requires parts != []
    ensures Join(parts + [p], sep) == Join(parts, sep) + sep + p
  {
    if |parts| == 1 {
      assert parts + [p] == [parts[0], p];
      assert [parts[0], p][1..] == [p];
    } else {
      var q := parts + [p];
      assert q[0] == parts[0] && q[1..] == parts[1..] + [p];
      JoinSnoc(parts[1..], p, sep);
      var rest := Join(parts[1..], sep);
      assert Join(q, sep) == parts[0] + sep + (rest + sep + p);
      assert Join(parts, sep) == parts[0] + sep + rest;
    }
  }

  /**
   * The text after `"<reason>."` in a failed generation: only for a SAFETY finish with ratings,
   * and only when some rating is harmful, the harmful ratings as labels in their original order.
   */
  function SafetyDetail(finish: string, ratings: Option<seq<Rating>>): (d: string)
    ensures d != "" <==> finish == SafetyReason && ratings.Some?
                         && exists k :: 0 <= k < |ratings.value| && IsHarmful(ratings.value[k])
    ensures d != "" ==> d == DetailPrefix + Join(Labels(Harmful(ratings.value)), ", ")
  {
    if finish == SafetyReason && ratings.Some? then
      var labels := Labels(Harmful(ratings.value));
      var joined := Join(labels, ", ");
      if joined != "" then DetailPrefix + joined else ""
    else ""
  }

  /**
   * The decision chain over a returned generation, first match wins: a truthy block reason, then an
   * abnormal finish reason, then the first text part (the empty string counts as text).
   */
  function Classify(g: Generation): (o: ChatOutcome)
    ensures o.Blocked? <==> Truthy(g.blockReason)
    ensures o.Blocked? ==> o.reason == g.blockReason.value
    ensures o.GenerationFailed? <==> !Truthy(g.blockReason) && AbnormalFinish(g.finishReason)
    ensures o.GenerationFailed? ==>
              o.reason == g.finishReason.value && o.detail == SafetyDetail(o.reason, g.safetyRatings)
    ensures o.Success? <==> !Truthy(g.blockReason) && !AbnormalFinish(g.finishReason) && g.text.Some?
    ensures o.Success? ==> g.text == Some(o.text)
    ensures o.Blocked? || o.GenerationFailed? || o.ExtractionFailed? || o.Success?
  {
    if Truthy(g.blockReason) then Blocked(g.blockReason.value)
    else if AbnormalFinish(g.finishReason) then
      GenerationFailed(g.finishReason.value, SafetyDetail(g.finishReason.value, g.safetyRatings))
    else if g.text.Some? then Success(g.text.value)
    else ExtractionFailed
  }

  /**
   * The handler around the classifier: the prompt guard before any call, one call to the provider
   * with the prompt exactly as received, and a throw turned into the generic upstream error.
   */
  function Mediate(prompt: Field, generate: string -> Upstream): (o: ChatOutcome)
    ensures o == InvalidPrompt <==> !AcceptedPrompt(prompt)
    ensures AcceptedPrompt(prompt) && generate(prompt.s).Threw? ==> o == UpstreamError
    ensures AcceptedPrompt(prompt) && generate(prompt.s).Returned? ==> o == Classify(generate(prompt.s).generation)
  {
    if !AcceptedPrompt(prompt) then InvalidPrompt
    else
      match generate(prompt.s)
      case Threw(_) => UpstreamError
      case Returned(g) => Classify(g)
  }

  /** A rejected prompt never reaches the provider: the outcome is the same whatever the provider does. */
  lemma InvalidPromptSkipsUpstream(prompt: Field, generate: string -> Upstream, other: string -> Upstream)
    requires !AcceptedPrompt(prompt)
    ensures Mediate(prompt, generate) == Mediate(prompt, other) == InvalidPrompt
  {
  }

  /** The body the client receives for an outcome. */
  function Reply(o: ChatOutcome): (r: ChatReply)
    ensures r.status == 200 <==> o.Success?
    ensures r.status == 400 <==> o.InvalidPrompt? || o.Blocked?
    ensures r.status == 500 <==> o.GenerationFailed? || o.ExtractionFailed? || o.UpstreamError?
    ensures r.body.ResponseBody? <==> o.Success?
    ensures o.Success? ==> r.body.response == o.text
  {
    match o
    case InvalidPrompt => ChatReply(400, ErrorBody(PromptRequiredMessage))
    case Blocked(reason) => ChatReply(400, ErrorBody(BlockedPrefix + reason))
    case GenerationFailed(reason, detail) => ChatReply(500, ErrorBody(FailedPrefix + reason + "." + detail))
    case ExtractionFailed => ChatReply(500, ErrorBody(ExtractionFailedMessage))
    case UpstreamError => ChatReply(500, ErrorBody(UpstreamErrorMessage))
    case Success(text) => ChatReply(200, ResponseBody(text))
  }

  /** `POST /api/chat` end to end: only a provider's text ever comes back as `response`. */
  function HandleChat(prompt: Field, generate: string -> Upstream): (r: ChatReply)
    ensures r.body.ResponseBody? ==> AcceptedPrompt(prompt) && generate(prompt.s).Returned?
                                     && generate(prompt.s).generation.text == Some(r.body.response)
  {
    Reply(Mediate(prompt, generate))
  }

  /** The wire reply of `POST /api/chat` before any generation is classified. */
  lemma HandleChatGuards(prompt: Field, generate: string -> Upstream)
    ensures !AcceptedPrompt(prompt) ==> HandleChat(prompt, generate) == ChatReply(400, ErrorBody(PromptRequiredMessage))
    ensures AcceptedPrompt(prompt) && generate(prompt.s).Threw? ==>
              HandleChat(prompt, generate) == ChatReply(500, ErrorBody(UpstreamErrorMessage))
  {
    if !AcceptedPrompt(prompt) {
      assert Mediate(prompt, generate) == InvalidPrompt;
    } else if generate(prompt.s).Threw? {
      assert Mediate(prompt, generate) == UpstreamError;
    }
  }

  /** The wire reply of `POST /api/chat` for each kind of returned generation, with its message. */
  lemma HandleChatReturned(prompt: Field, generate: string -> Upstream, g: Generation)
    requires AcceptedPrompt(prompt) && generate(prompt.s) == Returned(g)
    ensures Truthy(g.blockReason) ==> HandleChat(prompt, generate) == ChatReply(400, ErrorBody(BlockedPrefix + g.blockReason.value))
    ensures !Truthy(g.blockReason) && AbnormalFinish(g.finishReason) ==>
              HandleChat(prompt, generate) ==
              ChatReply(500, ErrorBody(FailedPrefix + g.finishReason.value + "." + SafetyDetail(g.finishReason.value, g.safetyRatings)))
    ensures !Truthy(g.blockReason) && !AbnormalFinish(g.finishReason) && g.text.Some? ==>
              HandleChat(prompt, generate) == ChatReply(200, ResponseBody(g.text.value))
    ensures !Truthy(g.blockReason) && !AbnormalFinish(g.finishReason) && g.text.None? ==>
              HandleChat(prompt, generate) == ChatReply(500, ErrorBody(ExtractionFailedMessage))
  {
    var o := Classify(g);
    assert Mediate(prompt, generate) == o;
    if Truthy(g.blockReason) {
      assert o == Blocked(g.blockReason.value);
    } else if AbnormalFinish(g.finishReason) {
      assert o == GenerationFailed(g.finishReason.value, SafetyDetail(g.finishReason.value, g.safetyRatings));
    } else if g.text.Some? {
      assert o == Success(g.text.value);
    } else {
      assert o == ExtractionFailed;
    }
  }
}
