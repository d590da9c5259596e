/**
 * src/Zod_GPT.ts: the structured chat on top of the fetch client, through
 * the function-calling interface. Every chat declares one function,
 * `structured_response`, whose parameters are the translated schema, and
 * forces the model to call it; the call's arguments are then parsed and
 * validated.
 */
module FunctionCallChat {
  import opened Types
  import opened Utils
  import FetchClient

  const DEFAULT_SYSTEM_MESSAGE := TrimLineWhitespace("You're a helpful AI Assistant")

  const STRUCTURED_RESPONSE := "structured_response"
  const STRUCTURED_RESPONSE_DESCRIPTION := "Deliver the response in a formatted function"
  const PARSE_FAILURE_MESSAGE := "Zod_LLM failed to parse LLM Response JSON."

  /**
   * A default parameter: the default applies exactly when the argument is
   * undefined, and the default is already line-trimmed.
   */
  function SystemMessageOrDefault(systemMessage: Option<string>): (r: string)
    ensures systemMessage.Some? ==> r == systemMessage.value
    ensures systemMessage.None? ==> r == DEFAULT_SYSTEM_MESSAGE && TrimLineWhitespace(r) == r
  {
    if systemMessage.Some? then systemMessage.value
    else
      TrimLineWhitespaceIdempotent("You're a helpful AI Assistant");
      DEFAULT_SYSTEM_MESSAGE
  }

  /**
   * The additional configuration of every chat: exactly one function,
   * `structured_response`, whose parameters are what the translator
   * returned, and a function_call that forces that same function.
   */
  function StructuredRequest(schema: ZodSchema): (c: FetchClient.RequestConfig)
    ensures c.model.None?
    ensures c.functions.Some? && |c.functions.value| == 1
    ensures c.functions.value[0].name == STRUCTURED_RESPONSE
    ensures c.functions.value[0].parameters == TranslationJson(schema.openApi)
    ensures c.functionCall == Some(FetchClient.Named(c.functions.value[0].name))
  {
    FetchClient.RequestConfig(
      None,
      Some([FetchClient.GptFunction(STRUCTURED_RESPONSE, STRUCTURED_RESPONSE_DESCRIPTION, TranslationJson(schema.openApi))]),
      Some(FetchClient.Named(STRUCTURED_RESPONSE)))
  }

  /** The arguments of a function call parse as JSON and zod accepts them. */
  predicate ArgumentsValidate(lib: JsonLib, schema: ZodSchema, call: FetchClient.FunctionCall)
  {
    lib.parse(call.arguments).Returned? && schema.parse(Some(lib.parse(call.arguments).value)).Returned?
  }

  /**
   * The mapping from the client's answer to an outcome. A message is a
   * success carrying its text, unvalidated. A function call is a success
   * carrying `{function: name, data: value}` exactly when its arguments
   * parse and validate, whatever name the model called; otherwise a 'parse'
   * problem carrying the whole answer.
   */
  function ResponseOutcome(lib: JsonLib, schema: ZodSchema, response: FetchClient.GptResponse)
    : (r: Outcome<Json, LlmError<FetchClient.GptResponse>>)
    ensures response.MessageResponse? ==> r == Success(JString(response.data))
    ensures response.FunctionCallResponse? ==> (r.Success? <==> ArgumentsValidate(lib, schema, response.call))
    ensures response.FunctionCallResponse? && r.Success? ==>
      r.value == JObject(map[
        "function" := JString(response.call.name),
        "data" := schema.parse(Some(lib.parse(response.call.arguments).value)).value])
    ensures r.Problem? ==>
      && response.FunctionCallResponse?
      && r.message == PARSE_FAILURE_MESSAGE && r.error.kind == PARSE_KIND && r.error.value == response
  {
    match response
    case MessageResponse(data) => Success(JString(data))
    case FunctionCallResponse(call) =>
      match lib.parse(call.arguments)
      case Threw(e) => Problem(PARSE_FAILURE_MESSAGE, LlmError(PARSE_KIND, response, e))
      case Returned(json) =>
        match schema.parse(Some(json))
        case Threw(e) => Problem(PARSE_FAILURE_MESSAGE, LlmError(PARSE_KIND, response, e))
        case Returned(parsed) => Success(JObject(map["function" := JString(call.name), "data" := parsed]))
  }

  /**
   * A model that calls the function as instructed gets its value back: when
   * the arguments are the JSON text of a value the JSON library reads back
   * and zod accepts as it is, `chat` succeeds with the called name and that value.
   */
  lemma FaithfulCallSucceeds(lib: JsonLib, schema: ZodSchema, name: string, v: Json)
    requires lib.parse(lib.stringify(v)) == Returned(v)
    requires schema.parse(Some(v)) == Returned(v)
    ensures ResponseOutcome(lib, schema, FetchClient.FunctionCallResponse(FetchClient.FunctionCall(name, lib.stringify(v))))
      == Success(JObject(map["function" := JString(name), "data" := v]))
  {
  }

  /**
   * The structured request wins over whatever the client was configured
   * with: the merged request declares only `structured_response` and forces
   * it, and keeps the client's model.
   */
  lemma StructuredRequestOverridesOptions(options: FetchClient.RequestConfig, schema: ZodSchema)
    ensures var merged := FetchClient.Spread(options, StructuredRequest(schema));
      && merged.model == options.model
      && merged.functions == StructuredRequest(schema).functions
      && merged.functionCall == Some(FetchClient.Named(STRUCTURED_RESPONSE))
  {
  }

  /** What `chat` settles with: a rejection of the client's chat passes through untouched. */
  function ChatResult(lib: JsonLib, schema: ZodSchema, response: Settled<FetchClient.GptResponse>)
    : (r: Settled<Outcome<Json, LlmError<FetchClient.GptResponse>>>)
    ensures r.Rejected? <==> response.Rejected?
    ensures r.Rejected? ==> r.reason == response.reason
    ensures r.Resolved? ==> r.value == ResponseOutcome(lib, schema, response.value)
  {
    match response
    case Rejected(e) => Rejected(e)
    case Resolved(answer) => Resolved(ResponseOutcome(lib, schema, answer))
  }

  class ZodGpt {
    const client: FetchClient.GptClient

    /** Sets the client's system message once, to the given one or the default. */
    constructor (client: FetchClient.GptClient, systemMessage: Option<string>)
      modifies client
      ensures this.client == client
      ensures client.history == FetchClient.WithSystemMessage(old(client.history), SystemMessageOrDefault(systemMessage))
      ensures client.isBuffering == old(client.isBuffering) && client.options == old(client.options)
      ensures client.sent == old(client.sent)
    {
      this.client := client;
      new;
      client.SetSystemMessage(SystemMessageOrDefault(systemMessage));
    }

    /**
     * chat: one client chat with the structured request. When the client is
     * not buffering, the one request it sends declares only
     * `structured_response` and forces it, whatever the client's own options.
     */
    method Chat(lib: JsonLib, message: string, schema: ZodSchema, completion: FetchClient.Completion)
      returns (r: Settled<Outcome<Json, LlmError<FetchClient.GptResponse>>>)
      modifies client
      ensures r == ChatResult(lib, schema, FetchClient.SendResult(old(client.isBuffering), completion))
      ensures client.isBuffering == old(client.isBuffering) && client.options == old(client.options)
      ensures old(client.isBuffering) ==>
        client.history == old(client.history) + [FetchClient.UserMessage(message)] && client.sent == old(client.sent)
      ensures !old(client.isBuffering) ==>
        && client.history == old(client.history) + [FetchClient.UserMessage(message)] + FetchClient.SendStep(completion).1
        && |client.sent| == |old(client.sent)| + 1
        && var request := client.sent[|client.sent| - 1];
           && request.messages == old(client.history) + [FetchClient.UserMessage(message)]
           && request.config.functions == StructuredRequest(schema).functions
           && request.config.functionCall == Some(FetchClient.Named(STRUCTURED_RESPONSE))
    {
      var result := client.Chat(message, StructuredRequest(schema), completion);
      if result.Rejected? {
        return Rejected(result.reason);
      }
      r := Resolved(ResponseOutcome(lib, schema, result.value));
    }
  }
}
