# Devlog feedback agent — a Dafny model

This project models the feedback pipeline of the Devlog service. A client posts a `FeedbackRequest` for a blog
post: ids, post type, the writer's experience level and preferred tone, and the post's content. The handler
`analyze_feedback` then does four things:

1. It picks a model client from configuration. That is the OpenAI-compatible live client when `LLM_BASE_URL`,
   `LLM_API_KEY` and `LLM_MODEL` are all set and non-empty, and a stub with a fixed JSON answer otherwise.
2. It applies the content-length gate, which accepts 120 to 12000 characters inclusive.
3. It runs the agent. The agent builds one prompt, calls the client once, and parses the answer all-or-nothing
   into the structured output.
4. It returns either a `FeedbackResponse` or an `ErrorResponse`. A `ValueError` becomes a `validation_error`
   carrying its own text. Any other exception becomes an `llm_error` with a fixed message.

Every answer echoes the request id and carries the agent tag `"feedback"`.

Every core file is pure: no object is updated in place. So the model is written with datatypes, functions and
lemmas. Python exceptions are values of `Wrappers.Exception`, and what can raise returns a `Result` or
`Outcome`. Things the pipeline receives from outside become parameters:

- the configuration is a `Router.Config` record of three optional strings;
- the HTTP exchange is a `LlmClient.Transport` function;
- JSON decoding with the shape checks is a `FeedbackModels.Decoder` function;
- how an enum member is rendered inside an f-string is a `FeedbackPrompt.EnumFormat`.

Runs of the agent and of the handler also record the prompts handed to the client and the HTTP requests put on
the wire. That makes "the client is called exactly once", "the client is never called when the gate fails" and
"only the live client sends anything" statable.

Modules, one per concern:

- `Wrappers`: `Option`, `Result`, `Outcome`, `Exception`.
- `PyText`: `str.isspace`, `strip()`, `str(int)`.
- `Json`: decoded JSON values and Python subscripting on them.
- `FeedbackModels`: `app/models/feedback.py`.
- `LlmClient`: `app/services/llm_client.py`.
- `FeedbackPrompt`: `_build_prompt`.
- `FeedbackAgent`: the rest of `app/services/feedback_agent.py`.
- `Router`: `app/api/router.py`.

One might expect malformed model output to be reported as an `llm_error`. In the code, `parse_llm_output`
re-raises every validation failure as `ValueError("LLM output failed validation")` (app/models/feedback.py:100-101),
and the handler's `except ValueError` clause comes first (app/api/router.py:67). So such output comes back as a
`validation_error` with that message (`Router.MalformedOutputIsValidationError`).

## Model

| member | source | states |
|---|---|---|
| PyText.LStrip | app/models/feedback.py:43 | `lstrip()` returns a suffix of its input. Everything it dropped is whitespace, and the result does not start with whitespace. |
| PyText.RStrip | app/models/feedback.py:43 | `rstrip()` returns a prefix of its input. Everything it dropped is whitespace, and the result does not end with whitespace. |
| PyText.Strip | app/models/feedback.py:43 | `strip()` is empty exactly when every character is whitespace. Otherwise it neither starts nor ends with whitespace. |
| PyText.Decimal | app/services/feedback_agent.py:46 | `str(n)` is a non-empty string of decimal digits without a leading zero. |
| PyText.DecimalRoundTrip | app/services/feedback_agent.py:46 | Reading back the digits `str(n)` prints gives `n`, so the message text denotes the bound itself. |
| Json.Subscript | app/services/llm_client.py:55 | `value[key]` succeeds exactly for a present string key of an object or an in-range index of a list or string, and returns that member (a string index returns that one character). Otherwise it raises KeyError on an object, IndexError for an out-of-range index, TypeError otherwise; never a `ValueError`. |
| Json.SubscriptPath | app/services/llm_client.py:55 | A chain of subscripts either yields a value or raises an exception that is not a `ValueError`. |
| FeedbackModels.ParsePostType | app/models/feedback.py:9-13 | A post type is accepted exactly for its four literals, case-sensitively, as the member carrying that literal. |
| FeedbackModels.ParseExperienceLevel | app/models/feedback.py:16-19 | A level is accepted exactly for its three literals, as the member carrying that literal. |
| FeedbackModels.ParsePreferredTone | app/models/feedback.py:22-25 | A tone is accepted exactly for its three literals, as the member carrying that literal. |
| FeedbackModels.EnumValuesRoundTrip | app/models/feedback.py:9-25 | Every member's literal parses back to that member. |
| FeedbackModels.ContentMustNotBeBlank | app/models/feedback.py:40-45 | Content is rejected with "content must not be blank" exactly when it is all whitespace, the empty string included. Other content passes unchanged. |
| FeedbackModels.ValidRequestIsFieldConstraints | app/models/feedback.py:33-45 | A valid request is exactly one whose request_id, user_id and content have length at least 1 and whose content passes the blank check. |
| FeedbackModels.BlankContentIsInvalid | app/models/feedback.py:37-45 | Whitespace-only content makes a request invalid, and passing the blank check implies length at least 1. |
| FeedbackModels.ValidateFeedbackRequest | app/models/feedback.py:28-45 | A raw body becomes a request exactly when every field constraint holds. The strings are kept unchanged and each enum becomes the member named by its literal. |
| FeedbackModels.ParseLlmOutput | app/models/feedback.py:97-101 | All-or-nothing: success exactly for a string that decodes to a structure meeting every range constraint, returned unchanged. Anything else raises the one fixed `ValueError`. |
| FeedbackModels.OutOfRangeScoreRejected | app/models/feedback.py:48-69 | A score or confidence outside [0.0, 1.0] makes the whole output fail. It is never clamped. |
| LlmClient.CompletionContent | app/services/llm_client.py:55 | The extraction yields `choices[0].message.content` exactly when the response has that shape. Otherwise it raises an exception that is not a `ValueError`. |
| LlmClient.ChatRequest | app/services/llm_client.py:29-50 | The one request the live client posts for a prompt. Its URL, header, body and timeout are stated by `Router.LiveRequestAssembly`. |
| LlmClient.Complete | app/services/llm_client.py:28-68 | The stub returns its text for any prompt and sends nothing. The live client sends exactly one request for the prompt, passes on a transport exception, and otherwise returns exactly `choices[0].message.content` of the decoded body, or the non-`ValueError` its absence raises. |
| FeedbackPrompt.SchemaTemplateListsToneValues | app/services/feedback_agent.py:68 | The schema's tone line offers exactly the three tone literals the parse accepts. |
| FeedbackPrompt.BuildPrompt | app/services/feedback_agent.py:54-91 | The prompt: the fixed instructions and schema, the three labelled enum lines, then the content block. What it promises is stated by `BuildPromptFraming` and `PromptDeterminedByPostFields`. |
| FeedbackPrompt.BuildPromptFraming | app/services/feedback_agent.py:60-91 | Every prompt starts with the fixed instructions and schema, and ends with "Content:\n", the content verbatim, then "\n". |
| FeedbackPrompt.RenderingIsInjective | app/services/feedback_agent.py:86-88 | Distinct enum members render distinctly, in either rendering. |
| FeedbackPrompt.RenderedValuesHaveNoNewline | app/services/feedback_agent.py:86-88 | A rendered enum member never contains a newline, so each labelled field stays on its own line. |
| FeedbackPrompt.FieldsDetermineRequest | app/services/feedback_agent.py:86-90 | The labelled lines after the preamble give back the post type, level, tone and content. |
| FeedbackPrompt.PromptDeterminedByPostFields | app/services/feedback_agent.py:54-91 | Two requests get the same prompt exactly when their post type, metadata and content agree. request_id and user_id never reach the prompt. |
| FeedbackAgent.ValidateContentLength | app/services/feedback_agent.py:41-52 | The gate passes exactly for lengths from 120 to 12000, both included. Shorter content gets the too-short `ValueError` and longer content the too-long one. |
| FeedbackAgent.LengthGateMessagesNameBounds | app/services/feedback_agent.py:44-52 | The two gate messages read "... minimum length is 120 characters" and "... maximum length is 12000 characters". |
| FeedbackAgent.Analyze | app/services/feedback_agent.py:29-38 | For any content length, the client is called exactly once, with exactly the built prompt. A client exception is passed on. The answer is accepted exactly when the parse accepts it. On success the response carries the request id, the "feedback" tag, and the three decoded parts unchanged. |
| Router.StubOutputIsSchemaValid | app/api/router.py:28-52 | The stub's answer meets every range constraint: tone NEUTRAL, three scores of 0.5, confidence 0.2, and no empty list. |
| Router.BuildLlmClient | app/api/router.py:15-52 | The live client is chosen exactly when all three settings are set and non-empty. It is built from exactly those values with the 20-second default timeout. Otherwise the client is the stub with its fixed text. |
| Router.ErrorFor | app/api/router.py:67-79 | A `ValueError` becomes a `validation_error` carrying its own text. Every other exception becomes an `llm_error` with the fixed message. The request id and "feedback" tag are always set. |
| Router.AnalyzeFeedback | app/api/router.py:61-79 | Every error answer is either a `validation_error` or an `llm_error` with the fixed message. |
| Router.EveryAnswerEchoesRequest | app/api/router.py:61-79 | Success and both error kinds all carry the request's id and the "feedback" tag. |
| Router.GateRunsFirst | app/api/router.py:62-71 | When the gate fails, the client is never called and the gate's message comes back as a `validation_error`. When it passes, the client gets exactly the built prompt. |
| Router.TransportOnlyWhenLive | app/api/router.py:62-66 | One request goes on the wire exactly when the live client is configured and the gate passes. Otherwise nothing is sent. |
| Router.StubAnswersEveryGatedRequest | app/api/router.py:28-66 | With the stub, every request that passes the gate gets a `FeedbackResponse` with its id and the stub's three parts, and nothing is sent. |
| Router.MalformedOutputIsValidationError | app/api/router.py:67-71 | Model output that does not decode, or that breaks a range constraint, is reported as a `validation_error` with "LLM output failed validation". |
| Router.LiveFailuresAreLlmErrors | app/api/router.py:72-79 | A non-`ValueError` transport failure, or a response without `choices[0].message.content`, ends as an `llm_error` with the fixed message. |
| Router.LiveValueErrorsAreValidationErrors | app/api/router.py:67-71 | A `ValueError` raised during the live exchange comes back as a `validation_error` carrying its text. |
| Router.LiveRequestAssembly | app/services/llm_client.py:28-50 | The one live request is a POST to base_url + "/v1/chat/completions" with "Bearer " + api_key. Its body has the configured model, temperature 0.0, and the persona then the unchanged prompt as the two messages. Its timeout is 20.0. |
| Router.SuccessMeansParsedAnswer | app/api/router.py:65-66 | An answer is a `FeedbackResponse` exactly when the gate passed and the client's answer decoded to a schema-valid structure. That structure's three parts are what the response carries. |

## Left out

- The HTTP exchange (`httpx.Client`, `post`, `raise_for_status`, `response.json()`, the timeout itself) is network I/O. It is the `Transport` parameter: the decoded body, or the exception raised on the way.
- JSON decoding and the shape checks inside `model_validate_json` are the `Decoder` parameter. The model does not include a JSON parser. The range constraints are modelled concretely (`SchemaValid`).
- That the stub's fixed text decodes to the stub value is an explicit precondition of `Router.StubAnswersEveryGatedRequest`.
- `os.getenv` is replaced by the `Config` record.
- FastAPI routing, the decorator, HTTP status codes and `app/main.py` are framework code. `app/main.py` is not part of this model.
- Validation of the request body is modelled as accept or reject (`ValidateFeedbackRequest`), not as the framework's 422 error body. The handler and its lemmas take `ValidRequest(payload)` as a precondition.
- Router.AnalyzeFeedback: its own contract only constrains the error kinds. The rest of the handler's behaviour is stated by the lemmas that follow it in the table.
- Floating point: scores, confidence, temperature and timeout are `real`. Scores are only compared against 0.0 and 1.0.
- JSON numbers are all `real`. Python's int/float distinction in decoded responses is not kept.
- Unicode: `len` is the number of code points (`|s|` over `seq<char>`). `str.isspace` is the fixed list of Python's whitespace code points.
- Enum rendering in the f-strings depends on the Python version (the member's value, or `ClassName.MEMBER`). It is the `EnumFormat` parameter, and every prompt property holds for both renderings.
- The exception hierarchy is reduced to `ValueError` and "anything else", the only distinction the handler makes. The exact text of non-`ValueError` exceptions is not modelled, because the handler never shows it.
- Headers that the HTTP library adds on its own are not modelled. Only the `Authorization` header the client sets is.
