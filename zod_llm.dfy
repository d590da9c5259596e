/**
 * src/zod-llm.ts: the structured chat on top of the SDK client. The
 * constructor installs a system message that tells the model to answer with
 * JSON wrapped in an `__AI_RESPONSE` field; `chat` translates the schema,
 * sends one prompt, and parses and validates the reply.
 */
module StructuredChat {
  import opened Types
  import opened Utils
  import SdkClient

  /** The default system message before trim_line_whitespace. */
  const RAW_DEFAULT_SYSTEM_MESSAGE :=
    "\nYou are an AI assistant that communicates using valid JSON.\nYou must combine the question given in \"prompt\" with keys and descriptions in \"json_schema\".\nYour response must be formatted according to \"json_schema\" provided.\nYou must never ignore the \"json_schema\" provided.\nIf you notice fields called \"description\" in \"json_schema\", you must use those to augment your response.\nNEVER insert text before or after your JSON response.\nYour response should always be formatted as follows:\n```\n{\n\t\"__AI_RESPONSE\": <<JSON response that passes \"json_schema\" validation>>\n}\n```\n"

  const DEFAULT_SYSTEM_MESSAGE := TrimLineWhitespace(RAW_DEFAULT_SYSTEM_MESSAGE)

  const PARSE_FAILURE_MESSAGE := "Zod_LLM failed to parse LLM Response JSON."

  /**
   * The TypeError JavaScript throws when reading a property of null, as a
   * JSON value: an Error has no enumerable own properties, so JSON.stringify
   * renders it as `{}`.
   */
  const NULL_PROPERTY_ERROR := JObject(map[])

  /**
   * A default parameter: the default applies exactly when the argument is
   * undefined, and the default is already line-trimmed.
   */
  function SystemMessageOrDefault(systemMessage: Option<string>): (r: string)
    ensures systemMessage.Some? ==> r == systemMessage.value
    ensures systemMessage.None? ==> r == DEFAULT_SYSTEM_MESSAGE && TrimLineWhitespace(r) == r
  {
    if systemMessage.Some? then systemMessage.value
    else
      TrimLineWhitespaceIdempotent(RAW_DEFAULT_SYSTEM_MESSAGE);
      DEFAULT_SYSTEM_MESSAGE
  }

  /**
   * `json.__AI_RESPONSE`: the field of an object (undefined, None, when it is
   * missing), undefined for every other non-null value, and a TypeError for null.
   */
  function AiResponseField(json: Json): (r: Attempt<Option<Json>>)
    ensures r.Threw? <==> json.JNull?
    ensures r.Returned? && r.value.Some? <==> json.JObject? && "__AI_RESPONSE" in json.fields
    ensures r.Returned? && r.value.Some? ==> r.value.value == json.fields["__AI_RESPONSE"]
  {
    match json
    case JNull => Threw(NULL_PROPERTY_ERROR)
    case JObject(fields) => Returned(if "__AI_RESPONSE" in fields then Some(fields["__AI_RESPONSE"]) else None)
    case _ => Returned(None)
  }

  /** The object the prompt is the JSON text of: exactly the keys `prompt` and `json_schema`. */
  function PromptObject(message: Json, jsonSchema: Json): (r: Json)
    ensures r.JObject? && r.fields.Keys == {"prompt", "json_schema"}
    ensures r.fields["prompt"] == message && r.fields["json_schema"] == jsonSchema
  {
    JObject(map["prompt" := message, "json_schema" := jsonSchema])
  }

  /** The raw reply parses as JSON, and zod accepts its `__AI_RESPONSE` field. */
  predicate ReplyValidates(lib: JsonLib, schema: ZodSchema, raw: string)
  {
    && lib.parse(raw).Returned?
    && AiResponseField(lib.parse(raw).value).Returned?
    && schema.parse(AiResponseField(lib.parse(raw).value).value).Returned?
  }

  /**
   * The outcome of `chat` once the reply is in: success with the validated
   * value exactly when the reply validates; otherwise, whichever step threw,
   * a 'parse' problem that carries the raw reply and the exception.
   */
  function ReplyOutcome(lib: JsonLib, schema: ZodSchema, raw: string): (r: Outcome<Json, LlmError<string>>)
    ensures r.Success? <==> ReplyValidates(lib, schema, raw)
    ensures r.Success? ==> r.value == schema.parse(AiResponseField(lib.parse(raw).value).value).value
    ensures r.Problem? ==> r.message == PARSE_FAILURE_MESSAGE && r.error.kind == PARSE_KIND && r.error.value == raw
    ensures lib.parse(raw).Threw? ==> r.Problem? && r.error.cause == lib.parse(raw).exception
  {
    match lib.parse(raw)
    case Threw(e) => Problem(PARSE_FAILURE_MESSAGE, LlmError(PARSE_KIND, raw, e))
    case Returned(json) =>
      match AiResponseField(json)
      case Threw(e) => Problem(PARSE_FAILURE_MESSAGE, LlmError(PARSE_KIND, raw, e))
      case Returned(field) =>
        match schema.parse(field)
        case Threw(e) => Problem(PARSE_FAILURE_MESSAGE, LlmError(PARSE_KIND, raw, e))
        case Returned(parsed) => Success(parsed)
  }

  /**
   * A model that answers exactly as instructed gets its value back: when the
   * reply is the JSON text of `{"__AI_RESPONSE": v}`, the JSON library reads
   * back what it wrote, and zod accepts `v` as it is, `chat` succeeds with `v`.
   */
  lemma FaithfulReplySucceeds(lib: JsonLib, schema: ZodSchema, v: Json)
    requires lib.parse(lib.stringify(JObject(map["__AI_RESPONSE" := v]))) == Returned(JObject(map["__AI_RESPONSE" := v]))
    requires schema.parse(Some(v)) == Returned(v)
    ensures ReplyOutcome(lib, schema, lib.stringify(JObject(map["__AI_RESPONSE" := v]))) == Success(v)
  {
  }

  /** What `chat` settles with, given what the client's chat settled with. */
  function ChatResult(lib: JsonLib, schema: ZodSchema, reply: Settled<string>): (r: Settled<Outcome<Json, LlmError<string>>>)
    ensures r.Rejected? <==> reply.Rejected?
    ensures r.Rejected? ==> r.reason == reply.reason
    ensures r.Resolved? ==> r.value == ReplyOutcome(lib, schema, reply.value)
  {
    match reply
    case Rejected(e) => Rejected(e)
    case Resolved(raw) => Resolved(ReplyOutcome(lib, schema, raw))
  }

  class ZodLlm {
    const client: SdkClient.GptClient

    /** Sets the client's system message once, to the given one or the default. */
    constructor (client: SdkClient.GptClient, systemMessage: Option<string>)
      modifies client
      ensures this.client == client
      ensures client.history == old(client.history) + [SdkClient.Message(SdkClient.System, SystemMessageOrDefault(systemMessage))]
      ensures client.sent == old(client.sent)
    {
      this.client := client;
      new;
      client.SetSystemMessage(SystemMessageOrDefault(systemMessage));
    }

    /**
     * chat: a schema the translator rejects is answered with the
     * translator's own problem, without calling the client; otherwise
     * exactly one client chat with the prompt object's JSON text.
     */
    method Chat(lib: JsonLib, message: Json, schema: ZodSchema, reply: Settled<seq<SdkClient.CompletionChoice>>)
      returns (r: Settled<Outcome<Json, LlmError<string>>>)
      modifies client
      ensures schema.openApi.Problem? ==>
        r == Resolved(schema.openApi) && client.history == old(client.history) && client.sent == old(client.sent)
      ensures schema.openApi.Success? ==>
        var prompt := lib.stringify(PromptObject(message, schema.openApi.value));
        && client.history == old(client.history) + [SdkClient.Message(SdkClient.User, prompt)]
        && client.sent == old(client.sent) + [client.history]
        && r == ChatResult(lib, schema, SdkClient.SendResult(reply))
    {
      var jsonSchema := schema.openApi;
      if jsonSchema.Problem? {
        return Resolved(jsonSchema);
      }
      var prompt := lib.stringify(PromptObject(message, jsonSchema.value));
      var result := client.Chat(prompt, reply);
      if result.Rejected? {
        return Rejected(result.reason);
      }
      r := Resolved(ReplyOutcome(lib, schema, result.value));
    }
  }
}
