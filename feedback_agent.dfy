/** The feedback pipeline: the content-length gate, the prompt, and `analyze`, which sends the prompt to the
    client once and turns the parsed answer into a response (app/services/feedback_agent.py). */
module FeedbackAgent {
  import opened Wrappers
  import opened PyText
  import opened Json
  import opened FeedbackModels
  import opened LlmClient
  import opened FeedbackPrompt

  const MinContentLength: nat := 120
  const MaxContentLength: nat := 12000

  const TooShortMessage :=
    "content is too short for meaningful feedback; "
    + "minimum length is " + Decimal(MinContentLength) + " characters"

  const TooLongMessage :=
    "content is too long for analysis; "
    + "maximum length is " + Decimal(MaxContentLength) + " characters"

  /** `validate_content_length`: passes exactly for lengths in [120, 12000], both ends included; below the range
      it raises the too-short `ValueError`, above it the too-long one. */
  function ValidateContentLength(content: string): (r: Outcome<Exception>)
    ensures r.Pass? <==> MinContentLength <= |content| <= MaxContentLength
    ensures |content| < MinContentLength ==> r == Fail(ValueError(TooShortMessage))
    ensures |content| > MaxContentLength ==> r == Fail(ValueError(TooLongMessage))
  {
    if |content| < MinContentLength then Fail(ValueError(TooShortMessage))
    else if |content| > MaxContentLength then Fail(ValueError(TooLongMessage))
    else Pass
  }

  /** Each gate message names the bound it enforces, printed in decimal. */
  lemma LengthGateMessagesNameBounds()
    ensures TooShortMessage ==
      "content is too short for meaningful feedback; " + "minimum length is " + "120" + " characters"
    ensures TooLongMessage ==
      "content is too long for analysis; " + "maximum length is " + "12000" + " characters"
  {
    assert Decimal(MinContentLength) == "120";
    assert Decimal(MaxContentLength) == "12000";
  }

  /** One run of `analyze`: its response or the exception it raised, the prompts it handed to `complete`, and
      the requests the client put on the wire. */
  datatype AgentRun = AgentRun(
    result: Result<FeedbackResponse, Exception>,
    prompts: seq<string>,
    sent: seq<HttpRequest>)

  /** `analyze`: calls the client exactly once, with exactly the built prompt, whatever the content's length;
      passes on the client's exception; parses exactly the value the client returned; and on success answers
      with the request's id and the three parsed parts unchanged. */
  function Analyze(client: LLMClient, fmt: EnumFormat, transport: Transport, decode: Decoder,
                   request: FeedbackRequest): (r: AgentRun)
    ensures r.prompts == [BuildPrompt(fmt, request)]
    ensures r.sent == Complete(client, BuildPrompt(fmt, request), transport).sent
    ensures
      var answer := Complete(client, BuildPrompt(fmt, request), transport).result;
      && (answer.Failure? ==> r.result == Failure(answer.error))
      && (answer.Success? ==> (r.result.Success? <==> ParseLlmOutput(decode, answer.value).Success?))
      && (answer.Success? && r.result.Failure? ==> r.result.error == ValueError(OutputFailedValidationMessage))
      && (r.result.Success? ==>
            && answer.Success? && answer.value.JString?
            && decode(answer.value.s) == Some(PartsOf(r.result.value))
            && SchemaValid(PartsOf(r.result.value)))
    ensures r.result.Success? ==>
      r.result.value.requestId == request.requestId && r.result.value.agent == DefaultAgent
  {
    var prompt := BuildPrompt(fmt, request);
    var completion := Complete(client, prompt, transport);
    var result :=
      match completion.result
      case Failure(e) => Failure(e)
      case Success(raw) =>
        match ParseLlmOutput(decode, raw)
        case Failure(e) => Failure(e)
        case Success(structured) =>
          Success(FeedbackResponse(
            requestId := request.requestId,
            analysis := structured.analysis,
            guidelines := structured.guidelines,
            agentReasoning := structured.agentReasoning));
    AgentRun(result, [prompt], completion.sent)
  }
}
