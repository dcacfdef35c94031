/** The request, structured-output and response shapes of the feedback endpoint, with their field constraints
    and the all-or-nothing parse of the model's output (app/models/feedback.py). */
module FeedbackModels {
  import opened Wrappers
  import opened PyText
  import opened Json

  datatype PostType = TIL | RETROSPECTIVE | TROUBLESHOOTING | DESIGN
  datatype ExperienceLevel = BEGINNER | INTERMEDIATE | ADVANCED
  datatype PreferredTone = CASUAL | NEUTRAL | TECHNICAL

  /** The string value of each enum member (the same text as the member's name). */
  function PostTypeValue(p: PostType): string {
    match p
    case TIL => "TIL"
    case RETROSPECTIVE => "RETROSPECTIVE"
    case TROUBLESHOOTING => "TROUBLESHOOTING"
    case DESIGN => "DESIGN"
  }

  function ExperienceLevelValue(l: ExperienceLevel): string {
    match l
    case BEGINNER => "BEGINNER"
    case INTERMEDIATE => "INTERMEDIATE"
    case ADVANCED => "ADVANCED"
  }

  function PreferredToneValue(t: PreferredTone): string {
    match t
    case CASUAL => "CASUAL"
    case NEUTRAL => "NEUTRAL"
    case TECHNICAL => "TECHNICAL"
  }

  /** The literals each enum declares, one per member. */
  const PostTypeValues: set<string> :=
    {PostTypeValue(TIL), PostTypeValue(RETROSPECTIVE), PostTypeValue(TROUBLESHOOTING), PostTypeValue(DESIGN)}
  const ExperienceLevelValues: set<string> :=
    {ExperienceLevelValue(BEGINNER), ExperienceLevelValue(INTERMEDIATE), ExperienceLevelValue(ADVANCED)}
  const PreferredToneValues: set<string> :=
    {PreferredToneValue(CASUAL), PreferredToneValue(NEUTRAL), PreferredToneValue(TECHNICAL)}

  /** Validation of a `PostType` field: exactly the listed literals are accepted, case-sensitively,
      each as the member carrying that literal. */
  function ParsePostType(s: string): (r: Option<PostType>)
    ensures r.Some? <==> s in PostTypeValues
    ensures r.Some? ==> PostTypeValue(r.value) == s
  {
    if s == PostTypeValue(TIL) then Some(TIL)
    else if s == PostTypeValue(RETROSPECTIVE) then Some(RETROSPECTIVE)
    else if s == PostTypeValue(TROUBLESHOOTING) then Some(TROUBLESHOOTING)
    else if s == PostTypeValue(DESIGN) then Some(DESIGN)
    else None
  }

  function ParseExperienceLevel(s: string): (r: Option<ExperienceLevel>)
    ensures r.Some? <==> s in ExperienceLevelValues
    ensures r.Some? ==> ExperienceLevelValue(r.value) == s
  {
    if s == ExperienceLevelValue(BEGINNER) then Some(BEGINNER)
    else if s == ExperienceLevelValue(INTERMEDIATE) then Some(INTERMEDIATE)
    else if s == ExperienceLevelValue(ADVANCED) then Some(ADVANCED)
    else None
  }

  function ParsePreferredTone(s: string): (r: Option<PreferredTone>)
    ensures r.Some? <==> s in PreferredToneValues
    ensures r.Some? ==> PreferredToneValue(r.value) == s
  {
    if s == PreferredToneValue(CASUAL) then Some(CASUAL)
    else if s == PreferredToneValue(NEUTRAL) then Some(NEUTRAL)
    else if s == PreferredToneValue(TECHNICAL) then Some(TECHNICAL)
    else None
  }

  /** Every member is accepted back from its own literal, so the enum validation and the values are inverses. */
  lemma EnumValuesRoundTrip(p: PostType, l: ExperienceLevel, t: PreferredTone)
    ensures ParsePostType(PostTypeValue(p)) == Some(p)
    ensures ParseExperienceLevel(ExperienceLevelValue(l)) == Some(l)
    ensures ParsePreferredTone(PreferredToneValue(t)) == Some(t)
  {
  }

  datatype FeedbackMetadata = FeedbackMetadata(experienceLevel: ExperienceLevel, preferredTone: PreferredTone)

  datatype FeedbackRequest = FeedbackRequest(
    requestId: string,
    userId: string,
    postType: PostType,
    content: string,
    metadata: FeedbackMetadata)

  /** A request body as it arrives, before field validation: the enum fields are still strings. */
  datatype RawMetadata = RawMetadata(experienceLevel: string, preferredTone: string)

  datatype RawFeedbackRequest = RawFeedbackRequest(
    requestId: string,
    userId: string,
    postType: string,
    content: string,
    metadata: RawMetadata)

  const BlankContentMessage := "content must not be blank"

  /** The `content` field validator: rejects content that `strip()` empties, which is exactly content made
      of whitespace only (the empty string included); any other content passes unchanged. */
  function ContentMustNotBeBlank(value: string): (r: Result<string, Exception>)
    ensures r.Failure? <==> AllSpace(value)
    ensures r.Failure? ==> r.error == ValueError(BlankContentMessage)
    ensures r.Success? ==> r.value == value && |value| >= 1
  {
    if Strip(value) == [] then Failure(ValueError(BlankContentMessage)) else Success(value)
  }

  /** A `FeedbackRequest` that passed every field constraint; only such requests reach the handler. */
  predicate ValidRequest(r: FeedbackRequest) {
    && |r.requestId| >= 1
    && |r.userId| >= 1
    && |r.content| >= 1
    && !AllSpace(r.content)
  }

  /** The predicate is exactly the declared field constraints together with the blank-content validator. */
  lemma ValidRequestIsFieldConstraints(r: FeedbackRequest)
    ensures ValidRequest(r) <==>
      && |r.requestId| >= 1 && |r.userId| >= 1 && |r.content| >= 1
      && ContentMustNotBeBlank(r.content).Success?
  {
  }

  /** Whitespace-only content, of any length, is rejected; the blank check subsumes the length-1 check. */
  lemma BlankContentIsInvalid(r: FeedbackRequest)
    ensures AllSpace(r.content) ==> !ValidRequest(r)
    ensures ContentMustNotBeBlank(r.content).Success? ==> |r.content| >= 1
  {
  }

  /** Request-body validation: a typed request exactly when every field constraint holds, carrying the
      strings unchanged and each enum as the member named by its literal. */
  function ValidateFeedbackRequest(raw: RawFeedbackRequest): (r: Option<FeedbackRequest>)
    ensures r.Some? <==>
      && |raw.requestId| >= 1
      && |raw.userId| >= 1
      && raw.postType in PostTypeValues
      && |raw.content| >= 1
      && !AllSpace(raw.content)
      && raw.metadata.experienceLevel in ExperienceLevelValues
      && raw.metadata.preferredTone in PreferredToneValues
    ensures r.Some? ==>
      && ValidRequest(r.value)
      && r.value.requestId == raw.requestId
      && r.value.userId == raw.userId
      && r.value.content == raw.content
      && PostTypeValue(r.value.postType) == raw.postType
      && ExperienceLevelValue(r.value.metadata.experienceLevel) == raw.metadata.experienceLevel
      && PreferredToneValue(r.value.metadata.preferredTone) == raw.metadata.preferredTone
  {
    var postType := ParsePostType(raw.postType);
    var level := ParseExperienceLevel(raw.metadata.experienceLevel);
    var tone := ParsePreferredTone(raw.metadata.preferredTone);
    if |raw.requestId| >= 1 && |raw.userId| >= 1 && |raw.content| >= 1
       && ContentMustNotBeBlank(raw.content).Success?
       && postType.Some? && level.Some? && tone.Some?
    then
      Some(FeedbackRequest(raw.requestId, raw.userId, postType.value, raw.content,
                           FeedbackMetadata(level.value, tone.value)))
    else
      None
  }

  datatype WritingStyle = WritingStyle(
    tone: PreferredTone,
    clarityScore: real,
    structureScore: real,
    depthScore: real)

  datatype FeedbackAnalysis = FeedbackAnalysis(
    writingStyle: WritingStyle,
    strengths: seq<string>,
    weaknesses: seq<string>)

  datatype FeedbackGuidelines = FeedbackGuidelines(
    nextArticleFocus: seq<string>,
    questionsToAnswer: seq<string>,
    structuralAdvice: seq<string>)

  datatype AgentReasoning = AgentReasoning(decisionSummary: string, confidence: real)

  datatype LLMStructuredOutput = LLMStructuredOutput(
    analysis: FeedbackAnalysis,
    guidelines: FeedbackGuidelines,
    agentReasoning: AgentReasoning)

  /** The closed interval [0.0, 1.0] of every score and of the confidence; both ends belong to it. */
  predicate InUnitInterval(x: real) {
    0.0 <= x <= 1.0
  }

  /** The range constraints of the structured output; the shape (fields present, types, enum literals)
      is what decoding establishes. */
  predicate SchemaValid(o: LLMStructuredOutput) {
    && InUnitInterval(o.analysis.writingStyle.clarityScore)
    && InUnitInterval(o.analysis.writingStyle.structureScore)
    && InUnitInterval(o.analysis.writingStyle.depthScore)
    && InUnitInterval(o.agentReasoning.confidence)
  }

  const DefaultAgent := "feedback"

  datatype FeedbackResponse = FeedbackResponse(
    requestId: string,
    analysis: FeedbackAnalysis,
    guidelines: FeedbackGuidelines,
    agentReasoning: AgentReasoning,
    agent: string := DefaultAgent)

  datatype ErrorDetails = ErrorDetails(message: string, errorType: string)

  datatype ErrorResponse = ErrorResponse(
    requestId: string,
    error: ErrorDetails,
    agent: string := DefaultAgent)

  /** The three parts a response carries, as one structured output. */
  function PartsOf(r: FeedbackResponse): LLMStructuredOutput {
    LLMStructuredOutput(r.analysis, r.guidelines, r.agentReasoning)
  }

  const OutputFailedValidationMessage := "LLM output failed validation"

  /** A decoder from JSON text to the structured-output shape: `None` when the text is not JSON, or a field
      is missing, has the wrong type or an unknown enum literal. */
  type Decoder = string -> Option<LLMStructuredOutput>

  /** `parse_llm_output`: all or nothing. The payload is accepted exactly when it is a string that decodes to
      a structure meeting every range constraint, and then that structure is returned unchanged (values are
      never clamped); every other payload, a non-string one included, raises the one fixed `ValueError`. */
  function ParseLlmOutput(decode: Decoder, payload: Json): (r: Result<LLMStructuredOutput, Exception>)
    ensures r.Success? <==>
      payload.JString? && decode(payload.s).Some? && SchemaValid(decode(payload.s).value)
    ensures r.Success? ==> decode(payload.s) == Some(r.value)
    ensures r.Failure? ==> r.error == ValueError(OutputFailedValidationMessage)
  {
    match payload
    case JString(text) =>
      (match decode(text)
       case Some(o) => if SchemaValid(o) then Success(o) else Failure(ValueError(OutputFailedValidationMessage))
       case None => Failure(ValueError(OutputFailedValidationMessage)))
    case _ => Failure(ValueError(OutputFailedValidationMessage))
  }

  /** A score is never clamped: one outside [0.0, 1.0] makes the whole output fail, whatever else it holds. */
  lemma OutOfRangeScoreRejected(decode: Decoder, text: string, o: LLMStructuredOutput)
    requires decode(text) == Some(o)
    requires !InUnitInterval(o.analysis.writingStyle.clarityScore)
          || !InUnitInterval(o.analysis.writingStyle.structureScore)
          || !InUnitInterval(o.analysis.writingStyle.depthScore)
          || !InUnitInterval(o.agentReasoning.confidence)
    ensures ParseLlmOutput(decode, JString(text)) == Failure(ValueError(OutputFailedValidationMessage))
  {
  }
}
