/** The model-client capability `complete(prompt)` and its two variants: the OpenAI-compatible live client,
    whose outbound request is assembled here and whose HTTP exchange is an opaque transport, and the stub
    that always answers with its fixed text (app/services/llm_client.py). */
module LlmClient {
  import opened Wrappers
  import opened Json

  const DefaultTimeoutS: real := 20.0

  datatype OpenAICompatibleClient = OpenAICompatibleClient(
    baseUrl: string,
    apiKey: string,
    model: string,
    timeoutS: real := DefaultTimeoutS)

  datatype StubLLMClient = StubLLMClient(responseJson: string)

  /** The two implementations of the `LLMClient` protocol. */
  datatype LLMClient = Live(live: OpenAICompatibleClient) | Stub(stub: StubLLMClient)

  datatype ChatMessage = ChatMessage(role: string, content: string)

  datatype ChatPayload = ChatPayload(model: string, temperature: real, messages: seq<ChatMessage>)

  /** One outbound POST: URL, headers, JSON body and the timeout the HTTP client is opened with. */
  datatype HttpRequest = HttpRequest(
    url: string,
    headers: map<string, string>,
    payload: ChatPayload,
    timeoutS: real)

  const ChatCompletionsPath := "/v1/chat/completions"

  const SystemPersona :=
    "You are a senior backend engineer mentoring a junior developer. "
    + "Be precise, critical, and constructive."

  /** The request the live client posts for one prompt. */
  function ChatRequest(c: OpenAICompatibleClient, prompt: string): HttpRequest {
    HttpRequest(
      c.baseUrl + ChatCompletionsPath,
      map["Authorization" := "Bearer " + c.apiKey],
      ChatPayload(c.model, 0.0, [ChatMessage("system", SystemPersona), ChatMessage("user", prompt)]),
      c.timeoutS)
  }

  /** The subscripts of `data["choices"][0]["message"]["content"]`. */
  const ContentPath: seq<Key> := [Name("choices"), Index(0), Name("message"), Name("content")]

  /** The OpenAI-compatible response shape: a non-empty `choices` list whose first entry is an object with
      a `message` object that has a `content` member. */
  predicate HasFirstChoiceContent(data: Json) {
    && data.JObject? && "choices" in data.members
    && data.members["choices"].JArray? && |data.members["choices"].items| > 0
    && data.members["choices"].items[0].JObject?
    && "message" in data.members["choices"].items[0].members
    && data.members["choices"].items[0].members["message"].JObject?
    && "content" in data.members["choices"].items[0].members["message"].members
  }

  /** The extraction the live client ends with: it yields the first choice's message content exactly when the
      response has that shape, and otherwise raises a KeyError, IndexError or TypeError, never a `ValueError`. */
  function CompletionContent(data: Json): (r: Result<Json, Exception>)
    ensures r.Success? <==> HasFirstChoiceContent(data)
    ensures r.Success? ==> r.value == data.members["choices"].items[0].members["message"].members["content"]
    ensures r.Failure? ==> r.error.NonValueError?
  {
    SubscriptPath(data, ContentPath)
  }

  /** The HTTP exchange (POST, status check, JSON decoding): the decoded response body or the exception
      raised on the way. A body that is not JSON raises a `ValueError` subclass there. */
  type Transport = HttpRequest -> Result<Json, Exception>

  /** What one call of `complete` returns (the Python value, or the exception it raised) together with
      the requests it put on the wire. */
  datatype Completion = Completion(result: Result<Json, Exception>, sent: seq<HttpRequest>)

  /** `client.complete(prompt)`. The stub ignores the prompt, sends nothing and returns its text; the live
      client sends exactly one request for the prompt, passes on a transport exception, and otherwise returns
      the value at `choices[0].message.content` or the non-`ValueError` its absence raises. */
  function Complete(client: LLMClient, prompt: string, transport: Transport): (r: Completion)
    ensures client.Stub? ==> r.result == Success(JString(client.stub.responseJson)) && r.sent == []
    ensures client.Live? ==> r.sent == [ChatRequest(client.live, prompt)]
    ensures client.Live? ==>
      var answer := transport(ChatRequest(client.live, prompt));
      && (answer.Failure? ==> r.result == answer)
      && (answer.Success? ==> (r.result.Success? <==> HasFirstChoiceContent(answer.value)))
      && (answer.Success? && r.result.Success? ==>
            r.result.value == answer.value.members["choices"].items[0].members["message"].members["content"])
      && (answer.Success? && r.result.Failure? ==> r.result.error.NonValueError?)
  {
    match client
    case Stub(s) => Completion(Success(JString(s.responseJson)), [])
    case Live(c) =>
      var request := ChatRequest(c, prompt);
      match transport(request)
      case Failure(e) => Completion(Failure(e), [request])
      case Success(data) => Completion(CompletionContent(data), [request])
  }
}
