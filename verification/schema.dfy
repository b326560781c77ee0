/** The shared types: the podcast record and its insert form, script
    segments, and the generation request with the validation its schema
    applies to a submitted body (bounds, enumerations and defaults). */
module Schema {
  import opened Outcomes

  /** The status strings the pipeline writes. The column is free text. */
  const Processing: string := "processing"
  const GeneratingScript: string := "generating_script"
  const GeneratingAudio: string := "generating_audio"
  const Completed: string := "completed"
  const Failed: string := "failed"

  /** Shortest content a submission may carry. */
  const MinContentLength: nat := 100

  /** A speaking-speed multiplier the schema accepts. */
  type Speed = r: real | 0.7 <= r <= 1.3 witness 1.0

  datatype TargetLength = Brief | Standard | Detailed | InDepth
  datatype Tone = Professional | Conversational | Casual | Academic

  function TargetLengthName(t: TargetLength): string {
    match t
    case Brief => "brief"
    case Standard => "standard"
    case Detailed => "detailed"
    case InDepth => "indepth"
  }

  /** The enum check for `targetLength`: exactly the four names. */
  function ParseTargetLength(s: string): (r: Option<TargetLength>)
    ensures r.Some? ==> TargetLengthName(r.value) == s
    ensures r.None? ==> forall t: TargetLength :: TargetLengthName(t) != s
  {
    if s == "brief" then Some(Brief)
    else if s == "standard" then Some(Standard)
    else if s == "detailed" then Some(Detailed)
    else if s == "indepth" then Some(InDepth)
    else None
  }

  function ToneName(t: Tone): string {
    match t
    case Professional => "professional"
    case Conversational => "conversational"
    case Casual => "casual"
    case Academic => "academic"
  }

  /** The enum check for `tone`: exactly the four names. */
  function ParseTone(s: string): (r: Option<Tone>)
    ensures r.Some? ==> ToneName(r.value) == s
    ensures r.None? ==> forall t: Tone :: ToneName(t) != s
  {
    if s == "professional" then Some(Professional)
    else if s == "conversational" then Some(Conversational)
    else if s == "casual" then Some(Casual)
    else if s == "academic" then Some(Academic)
    else None
  }

  /** Every enum value is accepted under its own name. */
  lemma EnumNamesRoundTrip(t: TargetLength, o: Tone)
    ensures ParseTargetLength(TargetLengthName(t)) == Some(t)
    ensures ParseTone(ToneName(o)) == Some(o)
  {
  }

  /** One line of dialogue. The speaker is typed `"male" | "female"`, but
      nothing checks that at run time, so the model keeps it a string. The
      model assumes every element is an object with string fields; a `null`
      element or a non-string `content` is outside it. */
  datatype ScriptSegment = ScriptSegment(speaker: string, name: string, content: string)

  /** The speaker tags the type declares. */
  predicate WellTypedSegment(s: ScriptSegment) {
    s.speaker == "male" || s.speaker == "female"
  }

  datatype GeneratedScript = GeneratedScript(segments: seq<ScriptSegment>, estimatedDuration: real)

  /** The placeholder script a record carries before the script stage. */
  const EmptyScript: GeneratedScript := GeneratedScript([], 0.0)

  /** A validated submission. `includeIntro` and `addMusic` are not part of
      it: the schema does not declare them, so validation drops them. */
  datatype GenerationRequest = GenerationRequest(
    content: string,
    maleVoice: string,
    femaleVoice: string,
    maleSpeed: Speed,
    femaleSpeed: Speed,
    targetLength: TargetLength,
    tone: Tone)

  /** A stored podcast. `createdAt` is a timestamp in milliseconds. */
  datatype Podcast = Podcast(
    id: string,
    title: string,
    originalContent: string,
    generatedScript: GeneratedScript,
    audioUrl: Option<string>,
    duration: Option<int>,
    settings: GenerationRequest,
    status: string,
    createdAt: int)

  /** The insert form: no `id`, no `createdAt`, and an optional status. */
  datatype InsertPodcast = InsertPodcast(
    title: string,
    originalContent: string,
    generatedScript: GeneratedScript,
    audioUrl: Option<string>,
    duration: Option<int>,
    settings: GenerationRequest,
    status: Option<string>)

  /** A JSON value as far as validation distinguishes it. */
  datatype Json = JString(str: string) | JNumber(num: real) | JOther

  /** A request body: each field absent (`None`) or some JSON value. */
  datatype RawRequest = RawRequest(
    content: Option<Json>,
    maleVoice: Option<Json>,
    femaleVoice: Option<Json>,
    maleSpeed: Option<Json>,
    femaleSpeed: Option<Json>,
    targetLength: Option<Json>,
    tone: Option<Json>)

  /** `z.string().min(100)`: required. */
  function CheckContent(f: Option<Json>): (r: Option<string>)
    ensures r.Some? <==> f.Some? && f.value.JString? && |f.value.str| >= MinContentLength
    ensures r.Some? ==> r.value == f.value.str
  {
    match f
    case Some(JString(s)) => if |s| >= MinContentLength then Some(s) else None
    case _ => None
  }

  /** `z.string().default(d)`: absent means `d`, any string is accepted. */
  function CheckVoice(f: Option<Json>, default: string): (r: Option<string>)
    ensures r.Some? <==> f.None? || f.value.JString?
    ensures f.None? ==> r == Some(default)
    ensures f.Some? && f.value.JString? ==> r == Some(f.value.str)
  {
    match f
    case None => Some(default)
    case Some(JString(s)) => Some(s)
    case _ => None
  }

  /** `z.number().min(0.7).max(1.3).default(1.0)`. */
  function CheckSpeed(f: Option<Json>): (r: Option<Speed>)
    ensures r.Some? <==> f.None? || (f.value.JNumber? && 0.7 <= f.value.num <= 1.3)
    ensures f.None? ==> r == Some(1.0)
    ensures f.Some? && r.Some? ==> r.value == f.value.num
  {
    match f
    case None => Some(1.0)
    case Some(JNumber(n)) => if 0.7 <= n <= 1.3 then Some(n) else None
    case _ => None
  }

  /** `z.enum([...]).default("standard")`. */
  function CheckTargetLength(f: Option<Json>): (r: Option<TargetLength>)
    ensures f.None? ==> r == Some(Standard)
    ensures f.Some? && r.Some? ==> f.value == JString(TargetLengthName(r.value))
    ensures f.Some? && f.value.JString? && (exists t :: TargetLengthName(t) == f.value.str) ==> r.Some?
  {
    match f
    case None => Some(Standard)
    case Some(JString(s)) => ParseTargetLength(s)
    case _ => None
  }

  /** `z.enum([...]).default("conversational")`. */
  function CheckTone(f: Option<Json>): (r: Option<Tone>)
    ensures f.None? ==> r == Some(Conversational)
    ensures f.Some? && r.Some? ==> f.value == JString(ToneName(r.value))
    ensures f.Some? && f.value.JString? && (exists t :: ToneName(t) == f.value.str) ==> r.Some?
  {
    match f
    case None => Some(Conversational)
    case Some(JString(s)) => ParseTone(s)
    case _ => None
  }

  /** The names of the fields that fail validation, in declaration order. */
  function Issues(raw: RawRequest): seq<string> {
    (if CheckContent(raw.content).None? then ["content"] else [])
    + (if CheckVoice(raw.maleVoice, "David").None? then ["maleVoice"] else [])
    + (if CheckVoice(raw.femaleVoice, "Sarah").None? then ["femaleVoice"] else [])
    + (if CheckSpeed(raw.maleSpeed).None? then ["maleSpeed"] else [])
    + (if CheckSpeed(raw.femaleSpeed).None? then ["femaleSpeed"] else [])
    + (if CheckTargetLength(raw.targetLength).None? then ["targetLength"] else [])
    + (if CheckTone(raw.tone).None? then ["tone"] else [])
  }

  /** `podcastGenerationRequestSchema.parse`: the validated request, or the
      list of offending fields. Fields the schema does not declare are not
      read at all. */
  function ParseRequest(raw: RawRequest): (r: Result<GenerationRequest, seq<string>>)
    ensures r.Success? <==> |Issues(raw)| == 0
    ensures r.Failure? ==> r.error == Issues(raw) && |r.error| > 0
    ensures r.Success? ==>
      && CheckContent(raw.content) == Some(r.value.content)
      && CheckVoice(raw.maleVoice, "David") == Some(r.value.maleVoice)
      && CheckVoice(raw.femaleVoice, "Sarah") == Some(r.value.femaleVoice)
      && CheckSpeed(raw.maleSpeed) == Some(r.value.maleSpeed)
      && CheckSpeed(raw.femaleSpeed) == Some(r.value.femaleSpeed)
      && CheckTargetLength(raw.targetLength) == Some(r.value.targetLength)
      && CheckTone(raw.tone) == Some(r.value.tone)
  {
    var content := CheckContent(raw.content);
    var maleVoice := CheckVoice(raw.maleVoice, "David");
    var femaleVoice := CheckVoice(raw.femaleVoice, "Sarah");
    var maleSpeed := CheckSpeed(raw.maleSpeed);
    var femaleSpeed := CheckSpeed(raw.femaleSpeed);
    var targetLength := CheckTargetLength(raw.targetLength);
    var tone := CheckTone(raw.tone);
    if content.Some? && maleVoice.Some? && femaleVoice.Some? && maleSpeed.Some?
       && femaleSpeed.Some? && targetLength.Some? && tone.Some?
    then
      Success(GenerationRequest(content.value, maleVoice.value, femaleVoice.value,
        maleSpeed.value, femaleSpeed.value, targetLength.value, tone.value))
    else
      Failure(Issues(raw))
  }

  /** Content that is not a string of at least 100 characters is rejected,
      and the rejection names the `content` field. */
  lemma ShortContentRejected(raw: RawRequest)
    requires raw.content.None? || !raw.content.value.JString? || |raw.content.value.str| < MinContentLength
    ensures ParseRequest(raw).Failure?
    ensures |ParseRequest(raw).error| > 0 && ParseRequest(raw).error[0] == "content"
  {
  }

  /** A speed outside [0.7, 1.3], or one that is not a number, is rejected;
      the bounds themselves are accepted. */
  lemma SpeedBounds(raw: RawRequest, x: real)
    requires raw.maleSpeed == Some(JNumber(x)) || raw.femaleSpeed == Some(JNumber(x))
    ensures (x < 0.7 || x > 1.3) ==> ParseRequest(raw).Failure?
    ensures ParseRequest(raw).Success? ==> 0.7 <= x <= 1.3
  {
  }

  /** A body carrying only long-enough content validates to the defaults:
      David and Sarah, both speeds 1.0, standard length, conversational tone. */
  lemma Defaults(content: string)
    requires |content| >= MinContentLength
    ensures ParseRequest(RawRequest(Some(JString(content)), None, None, None, None, None, None))
      == Success(GenerationRequest(content, "David", "Sarah", 1.0, 1.0, Standard, Conversational))
  {
  }

  /** A fully specified well-formed body validates to exactly its values. */
  lemma ExplicitValuesKept(q: GenerationRequest)
    requires |q.content| >= MinContentLength
    ensures ParseRequest(RawRequest(
      Some(JString(q.content)), Some(JString(q.maleVoice)), Some(JString(q.femaleVoice)),
      Some(JNumber(q.maleSpeed)), Some(JNumber(q.femaleSpeed)),
      Some(JString(TargetLengthName(q.targetLength))), Some(JString(ToneName(q.tone))))) == Success(q)
  {
    EnumNamesRoundTrip(q.targetLength, q.tone);
  }
}
