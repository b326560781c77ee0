/** The script stage: the length and tone directives, the intro/outro
    directives, the shape check on the model's reply and the error wrapping.
    The chat-completion call and `JSON.parse` are abstract: the caller
    supplies the reply the provider would have produced. */
module ScriptService {
  import opened Outcomes
  import opened Schema

  /** The fixed directive for each target length. */
  function LengthInstruction(t: TargetLength): string {
    match t
    case Brief => "3-5 minutes (about 450-750 words)"
    case Standard => "5-8 minutes (about 750-1200 words)"
    case Detailed => "8-12 minutes (about 1200-1800 words)"
    case InDepth => "12-15 minutes (about 1800-2250 words)"
  }

  /** The fixed directive for each tone. */
  function ToneInstruction(t: Tone): string {
    match t
    case Professional => "professional and informative tone with authoritative delivery"
    case Conversational => "conversational and engaging tone with natural flow"
    case Casual => "casual and friendly tone with relaxed interaction"
    case Academic => "academic and analytical tone with detailed explanations"
  }

  /** Different settings give different directives: the tables are one to
      one, so the prompt determines the length bucket and the tone. */
  lemma InstructionsDistinct(a: TargetLength, b: TargetLength, x: Tone, y: Tone)
    ensures LengthInstruction(a) == LengthInstruction(b) <==> a == b
    ensures ToneInstruction(x) == ToneInstruction(y) <==> x == y
  {
    LengthInstructionsDistinct(a, b);
    ToneInstructionsDistinct(x, y);
  }

  lemma LengthInstructionsDistinct(a: TargetLength, b: TargetLength)
    ensures LengthInstruction(a) == LengthInstruction(b) <==> a == b
  {
    LengthInstructionSize(a);
    LengthInstructionSize(b);
  }

  lemma ToneInstructionsDistinct(x: Tone, y: Tone)
    ensures ToneInstruction(x) == ToneInstruction(y) <==> x == y
  {
    ToneInstructionSize(x);
    ToneInstructionSize(y);
  }

  /** The directives of the length table have four different lengths. */
  lemma LengthInstructionSize(t: TargetLength)
    ensures |LengthInstruction(t)| == match t
      case Brief => 33 case Standard => 34 case Detailed => 36 case InDepth => 37
  {
  }

  /** The directives of the tone table have four different lengths. */
  lemma ToneInstructionSize(t: Tone)
    ensures |ToneInstruction(t)| == match t
      case Professional => 61 case Conversational => 50 case Casual => 49 case Academic => 55
  {
  }

  const IntroDirective: string := "Start with a brief intro where hosts introduce themselves and the topic."
  const OutroDirective: string := "End with a brief outro and closing remarks."

  /** The variable parts of the prompt. `includeIntroText` is the
      interpolation `${settings.includeIntro}`. */
  datatype Prompt = Prompt(
    article: string,
    targetLength: string,
    tone: string,
    maleVoice: string,
    femaleVoice: string,
    includeIntroText: string,
    intro: string,
    outro: string)

  /** The prompt for a given value of `settings.includeIntro` (`undefined`,
      `true` or `false`). */
  function PromptFor(content: string, settings: GenerationRequest, includeIntro: Option<bool>): (p: Prompt)
    ensures p.article == content
    ensures p.targetLength == LengthInstruction(settings.targetLength)
    ensures p.tone == ToneInstruction(settings.tone)
    ensures p.maleVoice == settings.maleVoice && p.femaleVoice == settings.femaleVoice
    ensures p.intro != "" <==> includeIntro == Some(true)
    ensures p.outro != "" <==> includeIntro == Some(true)
    ensures p.intro != "" ==> p.intro == IntroDirective && p.outro == OutroDirective
  {
    var truthy := includeIntro == Some(true);
    Prompt(
      content,
      LengthInstruction(settings.targetLength),
      ToneInstruction(settings.tone),
      settings.maleVoice,
      settings.femaleVoice,
      match includeIntro { case None => "undefined" case Some(b) => if b then "true" else "false" },
      if truthy then IntroDirective else "",
      if truthy then OutroDirective else "")
  }

  /** The prompt `generatePodcastScript` builds. The validated settings have
      no `includeIntro` (the schema does not declare it), so the read
      yields `undefined`. */
  function BuildPrompt(content: string, settings: GenerationRequest): Prompt {
    PromptFor(content, settings, None)
  }

  /** Consequently the intro and outro directives never reach the model, and
      the prompt says "Include intro and outro: undefined". */
  lemma IntroNeverRequested(content: string, settings: GenerationRequest)
    ensures BuildPrompt(content, settings).intro == ""
    ensures BuildPrompt(content, settings).outro == ""
    ensures BuildPrompt(content, settings).includeIntroText == "undefined"
  {
  }

  /** The `segments` property of the parsed reply: falsy or missing, truthy
      but not an array, or an array (whose elements are not inspected). */
  datatype SegmentsField = Absent | NotAnArray | AnArray(items: seq<ScriptSegment>)

  /** The parsed reply object. */
  datatype ReplyObject = ReplyObject(segments: SegmentsField, estimatedDuration: real)

  /** `response.choices[0].message.content`: empty (`null` or `""`, replaced
      by `"{}"`), text that `JSON.parse` rejects, or a parsed object. */
  datatype ReplyContent = EmptyContent | Unparseable(parseError: Thrown) | Parsed(obj: ReplyObject)

  const InvalidFormat: string := "Invalid script format returned from OpenAI"
  const ScriptErrorPrefix: string := "Failed to generate podcast script: "

  /** What parsing the content gives: `"{}"` has no `segments`. */
  function ParseReply(c: ReplyContent): Result<ReplyObject, Thrown> {
    match c
    case EmptyContent => Success(ReplyObject(Absent, 0.0))
    case Unparseable(e) => Failure(e)
    case Parsed(o) => Success(o)
  }

  /** The text-generation provider: given the prompt, the reply content, or
      a thrown value for a transport or provider error. */
  type ChatProvider = Prompt -> Result<ReplyContent, Thrown>

  /** The outcome of a reply once it has been parsed and shape-checked. */
  function CheckReply(reply: Result<ReplyContent, Thrown>): (r: Result<GeneratedScript, string>)
    ensures r.Success? <==> reply.Success? && reply.value.Parsed? && reply.value.obj.segments.AnArray?
    ensures r.Success? ==>
      r.value == GeneratedScript(reply.value.obj.segments.items, reply.value.obj.estimatedDuration)
    ensures r.Failure? ==> |r.error| >= |ScriptErrorPrefix| && r.error[..|ScriptErrorPrefix|] == ScriptErrorPrefix
    ensures reply.Failure? ==> r == Failure(ScriptErrorPrefix + Describe(reply.error))
    ensures reply.Success? && reply.value.Unparseable? ==>
      r == Failure(ScriptErrorPrefix + Describe(reply.value.parseError))
    ensures reply.Success? && (reply.value.EmptyContent? || (reply.value.Parsed? && !reply.value.obj.segments.AnArray?)) ==>
      r == Failure(ScriptErrorPrefix + InvalidFormat)
  {
    match reply
    case Failure(e) => Failure(ScriptErrorPrefix + Describe(e))
    case Success(c) =>
      match ParseReply(c)
      case Failure(e) => Failure(ScriptErrorPrefix + Describe(e))
      case Success(obj) =>
        if obj.segments.AnArray? then
          Success(GeneratedScript(obj.segments.items, obj.estimatedDuration))
        else
          Failure(ScriptErrorPrefix + InvalidFormat)
  }

  /** `generatePodcastScript`: one call to the provider with the built
      prompt, then the reply check. */
  function GenerateScript(content: string, settings: GenerationRequest, chat: ChatProvider)
    : (r: Result<GeneratedScript, string>)
    ensures var reply := chat(BuildPrompt(content, settings));
      && (r.Success? <==> reply.Success? && reply.value.Parsed? && reply.value.obj.segments.AnArray?)
      && (r.Success? ==> r.value.segments == reply.value.obj.segments.items)
    ensures r.Failure? ==> |r.error| >= |ScriptErrorPrefix| && r.error[..|ScriptErrorPrefix|] == ScriptErrorPrefix
  {
    CheckReply(chat(BuildPrompt(content, settings)))
  }

  /** The shape check is the only check: an array of segments is accepted
      whatever it holds, even an empty one or one with an unknown speaker. */
  lemma AnyArrayAccepted(d: real)
    ensures CheckReply(Success(Parsed(ReplyObject(AnArray([]), d)))) == Success(GeneratedScript([], d))
    ensures var odd := [ScriptSegment("narrator", "", "")];
      && !WellTypedSegment(odd[0])
      && CheckReply(Success(Parsed(ReplyObject(AnArray(odd), d)))) == Success(GeneratedScript(odd, d))
  {
  }
}
