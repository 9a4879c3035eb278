/**
  The prompt-enhancer endpoint (app/routes/api.enhancer.ts): field validation,
  the single wrapped message handed to `streamText`, and the mapping of the
  dispatch outcome to an HTTP response.

  The dispatch itself (`streamText`, `getModel` and the engine behind them) is
  a parameter: a function from the call it receives to what it produced.
 */
module Enhancer {
  import opened JsCore
  import StreamText

  /** A field of the decoded JSON body, as far as validation can tell them apart. */
  datatype JsonField = Missing | Str(value: string) | NonString

  /** The `provider` object of the body; only its `name` is read. */
  datatype ProviderInfo = ProviderInfo(name: JsonField)

  /** The decoded body `{ message, model, provider, apiKeys? }`, with `provider` present. */
  datatype EnhancerRequest = EnhancerRequest(
    message: string,
    model: JsonField,
    provider: ProviderInfo,
    apiKeys: Option<map<string, string>>)

  /** The arguments of `streamText(messages, env, options, apiKeys)`; `env` is not modelled. */
  datatype DispatchCall = DispatchCall(
    messages: seq<StreamText.Message>,
    options: Option<StreamText.StreamingOptions>,
    apiKeys: Option<map<string, string>>)

  /** The engine's data stream, opaque here. */
  datatype StreamHandle = StreamHandle(id: nat)

  /** What was caught: an `Error` (whose `message` may be missing) or any other thrown value. */
  datatype Thrown = ErrorValue(message: Option<string>) | NonErrorValue

  datatype DispatchOutcome = Streamed(stream: StreamHandle) | Threw(error: Thrown)

  datatype Header = Header(name: string, value: string)

  datatype Response =
    | BadRequest(reason: string)
    | Unauthorized
    | ServerError
    | Ok(headers: seq<Header>, body: StreamHandle)
  {
    function Status(): int
    {
      match this
      case BadRequest(_) => 400
      case Unauthorized => 401
      case ServerError => 500
      case Ok(_, _) => 200
    }

    /** The text body; `None` is the `null` body of a 500 and the streamed body of a 200. */
    function TextBody(): Option<string>
    {
      match this
      case BadRequest(reason) => Some(reason)
      case Unauthorized => Some("Invalid or missing API key")
      case ServerError => None
      case Ok(_, _) => None
    }
  }

  /** The response together with the dispatch call made, if any. */
  datatype Reply = Reply(response: Response, dispatched: Option<DispatchCall>)

  const ModelError := "Invalid or missing model"
  const ProviderError := "Invalid or missing provider"
  const ApiKeyMarker := "API key"

  const StreamHeaders := [
    Header("Content-Type", "text/plain; charset=utf-8"),
    Header("Transfer-Encoding", "chunked"),
    Header("X-Content-Type-Options", "nosniff")
  ]

  /** `!(!v || typeof v !== 'string')`: a string, and not the empty one. */
  predicate IsFilledString(f: JsonField)
  {
    f.Str? && f.value != ""
  }

  /** The two checks, model first. */
  function Validate(req: EnhancerRequest): (r: Option<string>)
    ensures r.None? <==> IsFilledString(req.model) && IsFilledString(req.provider.name)
    ensures !IsFilledString(req.model) ==> r == Some(ModelError)
    ensures IsFilledString(req.model) && !IsFilledString(req.provider.name) ==> r == Some(ProviderError)
  {
    if !IsFilledString(req.model) then Some(ModelError)
    else if !IsFilledString(req.provider.name) then Some(ProviderError)
    else None
  }

  /** The directive header put in front of the instructions. */
  function DirectiveHeader(model: string, providerName: string): (r: string)
    ensures |r| == 25 + |model| + |providerName|
  {
    "[Model: " + model + "]\n\n[Provider: " + providerName + "]\n\n"
  }

  /**
    The one call made to `streamText`: a single user message whose text is the
    directive header and then the instructions wrapped around the draft, no options,
    and the caller's keys.
   */
  function EnhancerCall(model: string, providerName: string, instructions: string, apiKeys: Option<map<string, string>>)
    : (r: DispatchCall)
    ensures |r.messages| == 1 && r.messages[0].role == StreamText.User
    ensures r.messages[0].content.Text?
    ensures var text := r.messages[0].content.text;
      |DirectiveHeader(model, providerName)| <= |text| &&
      text[..|DirectiveHeader(model, providerName)|] == DirectiveHeader(model, providerName) &&
      text[|DirectiveHeader(model, providerName)|..] == instructions
    ensures r.messages[0].toolInvocations.None? && r.messages[0].model.None?
    ensures r.options.None? && r.apiKeys == apiKeys
  {
    var text := DirectiveHeader(model, providerName) + instructions;
    assert text[..|DirectiveHeader(model, providerName)|] == DirectiveHeader(model, providerName);
    DispatchCall([StreamText.Message(StreamText.User, StreamText.Text(text), None, None)], None, apiKeys)
  }

  /** The header reads as the two directives, each bracketed and followed by a blank line. */
  lemma DirectiveHeaderShape(model: string, providerName: string)
    ensures var h := DirectiveHeader(model, providerName);
      var m := 8 + |model|;
      |h| == 25 + |model| + |providerName| &&
      h[..8] == "[Model: " && h[8..m] == model && h[m..m + 3] == "]\n\n" &&
      h[m + 3..m + 14] == "[Provider: " && h[m + 14..|h| - 3] == providerName &&
      h[|h| - 3..] == "]\n\n"
  {
  }

  /** The `catch` block: 401 when an `Error`'s message mentions an API key, else a bare 500. */
  function ClassifyFailure(e: Thrown): (r: Response)
    ensures r == Unauthorized <==>
      e.ErrorValue? && e.message.Some? && exists i: nat :: OccursAt(e.message.value, ApiKeyMarker, i)
    ensures r == Unauthorized || r == ServerError
  {
    match e
    case NonErrorValue => ServerError
    case ErrorValue(None) => ServerError
    case ErrorValue(Some(m)) =>
      IncludesIff(m, ApiKeyMarker);
      if Includes(m, ApiKeyMarker) then Unauthorized else ServerError
  }

  /** The response for what the dispatch produced. */
  function Respond(outcome: DispatchOutcome): (r: Response)
    ensures outcome.Streamed? ==> r == Ok(StreamHeaders, outcome.stream)
    ensures outcome.Threw? ==> r == ClassifyFailure(outcome.error)
  {
    match outcome
    case Streamed(s) => Ok(StreamHeaders, s)
    case Threw(e) => ClassifyFailure(e)
  }

  /** `enhancerAction`, with `instructions` the prompt template and `dispatch` the pipeline behind `streamText`. */
  function EnhancerAction(
    req: EnhancerRequest,
    instructions: string -> string,
    dispatch: DispatchCall -> DispatchOutcome)
    : (r: Reply)
    ensures !IsFilledString(req.model) ==> r == Reply(BadRequest(ModelError), None)
    ensures IsFilledString(req.model) && !IsFilledString(req.provider.name) ==>
      r == Reply(BadRequest(ProviderError), None)
    ensures r.dispatched.Some? <==> IsFilledString(req.model) && IsFilledString(req.provider.name)
    ensures r.dispatched.Some? ==>
      r.dispatched.value ==
        EnhancerCall(req.model.value, req.provider.name.value, instructions(req.message), req.apiKeys) &&
      r.response == Respond(dispatch(r.dispatched.value))
  {
    match Validate(req)
    case Some(reason) => Reply(BadRequest(reason), None)
    case None =>
      var call := EnhancerCall(req.model.value, req.provider.name.value, instructions(req.message), req.apiKeys);
      Reply(Respond(dispatch(call)), Some(call))
  }

  /** Status codes: 400 before dispatch, otherwise 200, 401 or 500 by what the dispatch produced. */
  lemma EnhancerStatus(req: EnhancerRequest, instructions: string -> string, dispatch: DispatchCall -> DispatchOutcome)
    ensures var r := EnhancerAction(req, instructions, dispatch);
      (r.dispatched.None? <==> r.response.Status() == 400) &&
      (r.response.Status() == 200 <==> r.dispatched.Some? && dispatch(r.dispatched.value).Streamed?) &&
      (r.response.Status() == 400 ==> r.response.TextBody() == Validate(req)) &&
      (r.response.Status() == 401 ==> r.response.TextBody() == Some("Invalid or missing API key")) &&
      (r.response.Status() == 500 ==> r.response.TextBody().None?) &&
      (r.response.Status() == 200 ==> r.response.headers == StreamHeaders)
  {
  }
}
