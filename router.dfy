/** The endpoint handler: client selection from configuration, the length gate, `analyze`, and the mapping of
    every raised exception to an `ErrorResponse` (app/api/router.py). */
module Router {
  import opened Wrappers
  import opened Json
  import opened FeedbackModels
  import opened LlmClient
  import opened FeedbackPrompt
  import opened FeedbackAgent

  /** The three configuration values the handler reads (LLM_BASE_URL, LLM_API_KEY, LLM_MODEL); `None` when unset. */
  datatype Config = Config(baseUrl: Option<string>, apiKey: Option<string>, model: Option<string>)

  /** Python truthiness of an optional string: set and non-empty. */
  predicate Truthy(v: Option<string>) {
    v.Some? && v.value != ""
  }

  predicate LiveConfigured(config: Config) {
    Truthy(config.baseUrl) && Truthy(config.apiKey) && Truthy(config.model)
  }

  const StubNote := "Stubbed response; configure LLM env vars."

  /** The note as a JSON string literal. */
  const QuotedNote := "\"" + StubNote + "\""

  /** The fixed JSON text the stub client answers with. */
  const StubResponseJson :=
    "{"
    + "\"analysis\": {"
    + "\"writing_style\": {"
    + "\"tone\": \"NEUTRAL\","
    + "\"clarity_score\": 0.5,"
    + "\"structure_score\": 0.5,"
    + "\"depth_score\": 0.5"
    + "},"
    + "\"strengths\": [" + QuotedNote + "],"
    + "\"weaknesses\": [" + QuotedNote + "]"
    + "},"
    + "\"guidelines\": {"
    + "\"next_article_focus\": [" + QuotedNote + "],"
    + "\"questions_to_answer\": [" + QuotedNote + "],"
    + "\"structural_advice\": [" + QuotedNote + "]"
    + "},"
    + "\"agent_reasoning\": {"
    + "\"decision_summary\": "
    + QuotedNote + ","
    + "\"confidence\": 0.2"
    + "}"
    + "}"

  /** The structured value that text denotes. */
  const StubOutput := LLMStructuredOutput(
    FeedbackAnalysis(WritingStyle(NEUTRAL, 0.5, 0.5, 0.5), [StubNote], [StubNote]),
    FeedbackGuidelines([StubNote], [StubNote], [StubNote]),
    AgentReasoning(StubNote, 0.2))

  /** The stub's payload meets every constraint of the structured output, and none of its lists is empty. */
  lemma StubOutputIsSchemaValid()
    ensures SchemaValid(StubOutput)
    ensures StubOutput.analysis.writingStyle.tone == NEUTRAL
    ensures && |StubOutput.analysis.strengths| > 0 && |StubOutput.analysis.weaknesses| > 0
            && |StubOutput.guidelines.nextArticleFocus| > 0 && |StubOutput.guidelines.questionsToAnswer| > 0
            && |StubOutput.guidelines.structuralAdvice| > 0
  {
  }

  /** `_build_llm_client`: the live client exactly when all three values are set and non-empty, built from
      exactly those values with the default timeout; the stub with its fixed text otherwise. */
  function BuildLlmClient(config: Config): (c: LLMClient)
    ensures c.Live? <==> LiveConfigured(config)
    ensures c.Live? ==>
      && c.live.baseUrl == config.baseUrl.value
      && c.live.apiKey == config.apiKey.value
      && c.live.model == config.model.value
      && c.live.timeoutS == DefaultTimeoutS
    ensures c.Stub? ==> c.stub.responseJson == StubResponseJson
  {
    if Truthy(config.baseUrl) && Truthy(config.apiKey) && Truthy(config.model) then
      Live(OpenAICompatibleClient(config.baseUrl.value, config.apiKey.value, config.model.value))
    else
      Stub(StubLLMClient(StubResponseJson))
  }

  const ValidationErrorType := "validation_error"
  const LlmErrorType := "llm_error"
  const InternalErrorMessage := "Feedback analysis failed due to an internal error."

  /** The endpoint's answer: one of the two response shapes. */
  datatype Response = Feedback(feedback: FeedbackResponse) | Error(failure: ErrorResponse)

  function RequestIdOf(r: Response): string {
    match r
    case Feedback(f) => f.requestId
    case Error(e) => e.requestId
  }

  function AgentOf(r: Response): string {
    match r
    case Feedback(f) => f.agent
    case Error(e) => e.agent
  }

  /** The two `except` clauses: a `ValueError` becomes a validation error carrying its own text; any other
      exception an LLM error with the fixed message, whatever it says. */
  function ErrorFor(requestId: string, e: Exception): (r: ErrorResponse)
    ensures r.requestId == requestId && r.agent == DefaultAgent
    ensures r.error.errorType == ValidationErrorType <==> e.ValueError?
    ensures r.error.errorType == LlmErrorType <==> e.NonValueError?
    ensures e.ValueError? ==> r.error.message == e.message
    ensures e.NonValueError? ==> r.error.message == InternalErrorMessage
  {
    match e
    case ValueError(message) => ErrorResponse(requestId, ErrorDetails(message, ValidationErrorType))
    case NonValueError(_, _) => ErrorResponse(requestId, ErrorDetails(InternalErrorMessage, LlmErrorType))
  }

  /** One run of the handler: its answer, the prompts handed to the client, the requests put on the wire. */
  datatype HandlerRun = HandlerRun(response: Response, prompts: seq<string>, sent: seq<HttpRequest>)

  /** `analyze_feedback`, for a request the framework has already validated: an error is either a validation
      error or an LLM error with the fixed message, which says nothing about what went wrong. */
  function AnalyzeFeedback(config: Config, fmt: EnumFormat, transport: Transport, decode: Decoder,
                           payload: FeedbackRequest): (r: HandlerRun)
    requires ValidRequest(payload)
    ensures r.response.Error? ==>
      || (r.response.failure.error.errorType == ValidationErrorType)
      || (r.response.failure.error.errorType == LlmErrorType
          && r.response.failure.error.message == InternalErrorMessage)
  {
    var client := BuildLlmClient(config);
    match ValidateContentLength(payload.content)
    case Fail(e) => HandlerRun(Error(ErrorFor(payload.requestId, e)), [], [])
    case Pass =>
      var run := Analyze(client, fmt, transport, decode, payload);
      match run.result
      case Success(response) => HandlerRun(Feedback(response), run.prompts, run.sent)
      case Failure(e) => HandlerRun(Error(ErrorFor(payload.requestId, e)), run.prompts, run.sent)
  }

  /** Every answer, success or either kind of error, echoes the request id and carries the "feedback" agent tag. */
  lemma EveryAnswerEchoesRequest(config: Config, fmt: EnumFormat, transport: Transport, decode: Decoder,
                                 payload: FeedbackRequest)
    requires ValidRequest(payload)
    ensures
      var r := AnalyzeFeedback(config, fmt, transport, decode, payload);
      RequestIdOf(r.response) == payload.requestId && AgentOf(r.response) == DefaultAgent
  {
  }

  /** The gate runs before the agent: when it fails the client is never called and the gate's own message comes
      back as a validation error; when it passes the client is called once, with exactly the built prompt. */
  lemma GateRunsFirst(config: Config, fmt: EnumFormat, transport: Transport, decode: Decoder,
                      payload: FeedbackRequest)
    requires ValidRequest(payload)
    ensures
      var r := AnalyzeFeedback(config, fmt, transport, decode, payload);
      var gate := ValidateContentLength(payload.content);
      && (gate.Fail? ==>
            && r.prompts == [] && r.sent == []
            && r.response == Error(ErrorResponse(payload.requestId, ErrorDetails(gate.error.message, ValidationErrorType))))
      && (gate.Pass? ==> r.prompts == [BuildPrompt(fmt, payload)])
  {
  }

  /** The transport is used, once, exactly when the configuration selects the live client and the gate passes;
      the stub and a rejected request send nothing. */
  lemma TransportOnlyWhenLive(config: Config, fmt: EnumFormat, transport: Transport, decode: Decoder,
                              payload: FeedbackRequest)
    requires ValidRequest(payload)
    ensures
      var sent := AnalyzeFeedback(config, fmt, transport, decode, payload).sent;
      (|sent| == 1 <==> LiveConfigured(config) && ValidateContentLength(payload.content).Pass?)
      && (|sent| == 0 <==> !(LiveConfigured(config) && ValidateContentLength(payload.content).Pass?))
  {
  }

  /** With the stub selected and its text decoding to the stub value, every request that passes the gate is
      answered with a `FeedbackResponse` carrying its id and the stub's three parts, and nothing is sent. */
  lemma StubAnswersEveryGatedRequest(config: Config, fmt: EnumFormat, transport: Transport, decode: Decoder,
                                     payload: FeedbackRequest)
    requires ValidRequest(payload)
    requires !LiveConfigured(config)
    requires decode(StubResponseJson) == Some(StubOutput)
    requires MinContentLength <= |payload.content| <= MaxContentLength
    ensures AnalyzeFeedback(config, fmt, transport, decode, payload).response ==
      Feedback(FeedbackResponse(payload.requestId, StubOutput.analysis, StubOutput.guidelines, StubOutput.agentReasoning))
    ensures AnalyzeFeedback(config, fmt, transport, decode, payload).sent == []
  {
    StubOutputIsSchemaValid();
  }

  /** Output the model sends that does not decode, or that breaks a range constraint, is reported as a validation
      error with the fixed parse message (the `ValueError` clause catches it), never as an LLM error. */
  lemma MalformedOutputIsValidationError(config: Config, fmt: EnumFormat, transport: Transport, decode: Decoder,
                                         payload: FeedbackRequest)
    requires ValidRequest(payload)
    requires ValidateContentLength(payload.content).Pass?
    requires
      var answer := Complete(BuildLlmClient(config), BuildPrompt(fmt, payload), transport).result;
      answer.Success? && ParseLlmOutput(decode, answer.value).Failure?
    ensures AnalyzeFeedback(config, fmt, transport, decode, payload).response ==
      Error(ErrorResponse(payload.requestId, ErrorDetails(OutputFailedValidationMessage, ValidationErrorType)))
  {
  }

  /** A live exchange that fails with anything but a `ValueError` (connection, timeout, HTTP status), or whose
      response lacks `choices[0].message.content`, ends as an LLM error with the fixed message. */
  lemma LiveFailuresAreLlmErrors(config: Config, fmt: EnumFormat, transport: Transport, decode: Decoder,
                                 payload: FeedbackRequest)
    requires ValidRequest(payload)
    requires LiveConfigured(config)
    requires ValidateContentLength(payload.content).Pass?
    requires
      var answer := transport(ChatRequest(BuildLlmClient(config).live, BuildPrompt(fmt, payload)));
      || (answer.Failure? && answer.error.NonValueError?)
      || (answer.Success? && !HasFirstChoiceContent(answer.value))
    ensures AnalyzeFeedback(config, fmt, transport, decode, payload).response ==
      Error(ErrorResponse(payload.requestId, ErrorDetails(InternalErrorMessage, LlmErrorType)))
  {
  }

  /** An exception of the `ValueError` family raised during the live exchange (a response body that is not JSON
      raises one) comes back as a validation error carrying its own text, like any other `ValueError`. */
  lemma LiveValueErrorsAreValidationErrors(config: Config, fmt: EnumFormat, transport: Transport, decode: Decoder,
                                           payload: FeedbackRequest)
    requires ValidRequest(payload)
    requires LiveConfigured(config)
    requires ValidateContentLength(payload.content).Pass?
    requires
      var answer := transport(ChatRequest(BuildLlmClient(config).live, BuildPrompt(fmt, payload)));
      answer.Failure? && answer.error.ValueError?
    ensures
      var answer := transport(ChatRequest(BuildLlmClient(config).live, BuildPrompt(fmt, payload)));
      AnalyzeFeedback(config, fmt, transport, decode, payload).response ==
        Error(ErrorResponse(payload.requestId, ErrorDetails(answer.error.message, ValidationErrorType)))
  {
  }

  /** The one request a live configuration sends: POST to base_url + "/v1/chat/completions" with the bearer
      key, the configured model at temperature 0.0, the persona then the prompt unchanged as the two messages,
      and the default 20-second timeout. */
  lemma LiveRequestAssembly(config: Config, fmt: EnumFormat, transport: Transport, decode: Decoder,
                            payload: FeedbackRequest)
    requires ValidRequest(payload)
    requires LiveConfigured(config)
    requires ValidateContentLength(payload.content).Pass?
    ensures
      var sent := AnalyzeFeedback(config, fmt, transport, decode, payload).sent;
      && |sent| == 1
      && sent[0].url == config.baseUrl.value + "/v1/chat/completions"
      && sent[0].headers == map["Authorization" := "Bearer " + config.apiKey.value]
      && sent[0].payload.model == config.model.value
      && sent[0].payload.temperature == 0.0
      && sent[0].payload.messages ==
           [ChatMessage("system", SystemPersona), ChatMessage("user", BuildPrompt(fmt, payload))]
      && sent[0].timeoutS == 20.0
  {
  }

  /** A response is a `FeedbackResponse` exactly when the gate passed and the client's answer was a string that
      decoded to a schema-valid structure, whose three parts the response then carries unchanged. */
  lemma SuccessMeansParsedAnswer(config: Config, fmt: EnumFormat, transport: Transport, decode: Decoder,
                                 payload: FeedbackRequest)
    requires ValidRequest(payload)
    ensures
      var r := AnalyzeFeedback(config, fmt, transport, decode, payload);
      var answer := Complete(BuildLlmClient(config), BuildPrompt(fmt, payload), transport).result;
      && (r.response.Feedback? <==>
            && ValidateContentLength(payload.content).Pass?
            && answer.Success? && answer.value.JString?
            && decode(answer.value.s).Some? && SchemaValid(decode(answer.value.s).value))
      && (r.response.Feedback? ==> decode(answer.value.s) == Some(PartsOf(r.response.feedback)))
  {
  }
}
