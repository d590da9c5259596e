/**
 * src/zod-healing-llm.ts: the structured chat with one recovery attempt.
 * When the structured chat's reply does not parse or validate, the raw
 * reply, the exception and the JSON schema go to the model once more,
 * through `incognito_chat` under a recovery system message, and that answer
 * is parsed and validated in turn. There is no second attempt.
 */
module SelfHealing {
  import opened Types
  import opened Utils
  import SdkClient
  import StructuredChat

  const RECOVERY_SYSTEM_MESSAGE :=
    "\nYou are an AI assistant that fixes provided data. The user will provide you with DATA and your task is to fix it.\nYour HIGHEST priority is to make sure the you return JSON that matches JSON SCHEMA.\nUse ONLY valid JSON to reply.\nDo not insert any text before or after JSON.\nThe JSON you return must match the JSON SCHEMA.\n\n\n\n# EXAMPLE 1:\n\nDATA:\nThis is a really interesting question! \n```json\n{ \n\t\"__AI_RESPONSE\": {\n\t\t\"answer\": 42,\n\t}\n}\n```\n\nJSON SCHEMA:\n{\n\t\"type\": \"object\",\n\t\"properties\": {\n\t\t\"answer\": {\n\t\t\t\"type\": \"number\",\n\t\t},\n\t},\n\t\"required\": [\n\t\t\"answer\",\n\t],\n}\n\nRESPONSE:\n{ \"answer\": 42 }\n\n# EXAMPLE 2:\n\nDATA:\nThis is a really interesting question! I like the answer from the book \"The Hitchhiker\'s Guide to the Galaxy\".\n\nJSON SCHEMA:\n{\n\t\"type\": \"object\",\n\t\"properties\": {\n\t\t\"answer\": {\n\t\t\t\"type\": \"number\",\n\t\t},\n\t},\n\t\"required\": [\n\t\t\"answer\",\n\t],\n}\n\nRESPONSE:\n{ \"answer\": 42 }\n"

  const RECOVERY_FAILURE_MESSAGE := "Recovery failed."

  /**
   * The recovery prompt: the DATA section with the failed reply, the
   * `Zod.js ERROR` section with the exception, the `JSON SCHEMA` section
   * with the translator's outcome, in this order, ending in `RESPONSE:`.
   */
  function RecoveryPrompt(lib: JsonLib, data: string, cause: Json, expected: Outcome<Json, LlmError<string>>): (p: string)
    ensures StartsWith(p, "\nDATA:\n" + data + "\nZod.js ERROR:\n" + lib.stringify(cause))
    ensures EndsWith(p, "\nJSON SCHEMA:\n" + lib.stringify(TranslationJson(expected)) + "\n\nRESPONSE:")
    ensures |p| == |"\nDATA:\n" + data + "\nZod.js ERROR:\n" + lib.stringify(cause)|
                 + |"\nJSON SCHEMA:\n" + lib.stringify(TranslationJson(expected)) + "\n\nRESPONSE:"|
  {
    var head := "\nDATA:\n" + data + "\nZod.js ERROR:\n" + lib.stringify(cause);
    var tail := "\nJSON SCHEMA:\n" + lib.stringify(TranslationJson(expected)) + "\n\nRESPONSE:";
    var p := "" + "\nDATA:\n" + data + "\nZod.js ERROR:\n" + lib.stringify(cause)
      + "\nJSON SCHEMA:\n" + lib.stringify(TranslationJson(expected)) + "\n\n" + "RESPONSE:";
    assert p == head + tail;
    p
  }

  /** Where the decision tree goes once the structured chat has answered. */
  datatype Decision = Return(outcome: Outcome<Json, LlmError<string>>) | Recover(prompt: string)

  /**
   * A success, and a problem of kind 'schema', are returned as they are;
   * every other problem leads to recovery with the prompt built from it.
   */
  function Decide(lib: JsonLib, expected: Outcome<Json, LlmError<string>>, inner: Outcome<Json, LlmError<string>>): (d: Decision)
    ensures d.Return? <==> inner.Success? || inner.error.kind == SCHEMA_KIND
    ensures d.Return? ==> d.outcome == inner
    ensures d.Recover? ==> d.prompt == RecoveryPrompt(lib, inner.error.value, inner.error.cause, expected)
  {
    if inner.Success? then Return(inner)
    else if inner.error.kind == SCHEMA_KIND then Return(inner)
    else Recover(RecoveryPrompt(lib, inner.error.value, inner.error.cause, expected))
  }

  /** The recovery answer: success with zod's value when it parses and validates, else a 'parse' problem carrying it. */
  function RecoveryOutcome(lib: JsonLib, schema: ZodSchema, recovery: string): (r: Outcome<Json, LlmError<string>>)
    ensures r.Success? <==> lib.parse(recovery).Returned? && schema.parse(Some(lib.parse(recovery).value)).Returned?
    ensures r.Success? ==> r.value == schema.parse(Some(lib.parse(recovery).value)).value
    ensures r.Problem? ==>
      r.message == RECOVERY_FAILURE_MESSAGE && r.error.kind == PARSE_KIND && r.error.value == recovery
  {
    match lib.parse(recovery)
    case Threw(e) => Problem(RECOVERY_FAILURE_MESSAGE, LlmError(PARSE_KIND, recovery, e))
    case Returned(json) =>
      match schema.parse(Some(json))
      case Threw(e) => Problem(RECOVERY_FAILURE_MESSAGE, LlmError(PARSE_KIND, recovery, e))
      case Returned(parsed) => Success(parsed)
  }

  /** A recovery answer that is the JSON text of a value zod accepts as it is yields that value. */
  lemma FaithfulRecoverySucceeds(lib: JsonLib, schema: ZodSchema, v: Json)
    requires lib.parse(lib.stringify(v)) == Returned(v)
    requires schema.parse(Some(v)) == Returned(v)
    ensures RecoveryOutcome(lib, schema, lib.stringify(v)) == Success(v)
  {
  }

  /** The result of the recovery round trip, given what incognito_chat settled with. */
  function RecoveryResult(lib: JsonLib, schema: ZodSchema, reply: Settled<string>): (r: Settled<Outcome<Json, LlmError<string>>>)
    ensures r.Rejected? <==> reply.Rejected?
    ensures r.Rejected? ==> r.reason == reply.reason
    ensures r.Resolved? ==> r.value == RecoveryOutcome(lib, schema, reply.value)
  {
    match reply
    case Rejected(e) => Rejected(e)
    case Resolved(text) => Resolved(RecoveryOutcome(lib, schema, text))
  }

  /**
   * One run of `chat`: what it settles with, how many structured chats it
   * made, and the prompt of the recovery call if it made one.
   */
  datatype Run = Run(result: Settled<Outcome<Json, LlmError<string>>>, chats: nat, recovery: Option<string>)

  /**
   * The decision tree of `chat`, given what the structured chat's client
   * call and the recovery call settle with. A schema the translator rejects
   * is answered with the translator's problem and no call; otherwise there
   * is exactly one structured chat, and a recovery call exactly when that
   * chat's reply fails to parse or validate. The 'schema' branch is never
   * taken: a translation that succeeded once succeeds inside the structured
   * chat too. A final problem therefore always comes from the recovery
   * answer.
   */
  function Heal(lib: JsonLib, schema: ZodSchema, chatReply: Settled<string>, recoveryReply: Settled<string>): (run: Run)
    ensures schema.openApi.Problem? ==> run == Run(Resolved(schema.openApi), 0, None)
    ensures schema.openApi.Success? ==> run.chats == 1
    ensures run.recovery.Some? <==>
      schema.openApi.Success? && chatReply.Resolved? && !StructuredChat.ReplyValidates(lib, schema, chatReply.value)
    ensures schema.openApi.Success? && chatReply.Rejected? ==> run.result == Rejected(chatReply.reason)
    ensures schema.openApi.Success? && chatReply.Resolved? && StructuredChat.ReplyValidates(lib, schema, chatReply.value) ==>
      run.result == Resolved(StructuredChat.ReplyOutcome(lib, schema, chatReply.value))
    ensures run.recovery.Some? ==>
      var failed := StructuredChat.ReplyOutcome(lib, schema, chatReply.value);
      && run.recovery.value == RecoveryPrompt(lib, chatReply.value, failed.error.cause, schema.openApi)
      && run.result == RecoveryResult(lib, schema, recoveryReply)
    ensures schema.openApi.Success? && run.result.Resolved? && run.result.value.Problem? ==>
      run.recovery.Some? && run.result.value.error.kind == PARSE_KIND
  {
    if schema.openApi.Problem? then Run(Resolved(schema.openApi), 0, None)
    else
      match StructuredChat.ChatResult(lib, schema, chatReply)
      case Rejected(e) => Run(Rejected(e), 1, None)
      case Resolved(inner) =>
        match Decide(lib, schema.openApi, inner)
        case Return(outcome) => Run(Resolved(outcome), 1, None)
        case Recover(prompt) => Run(RecoveryResult(lib, schema, recoveryReply), 1, Some(prompt))
  }

  class ZodHealingLlm {
    const llm: SdkClient.GptClient
    const zodClient: StructuredChat.ZodLlm

    /** The structured chat works on the same client the recovery call goes to. */
    ghost predicate Valid()
    {
      zodClient.client == llm
    }

    /** Wraps a structured chat around the client, which sets the system message once. */
    constructor (llm: SdkClient.GptClient, systemMessage: Option<string>)
      modifies llm
      ensures Valid() && this.llm == llm && fresh(zodClient)
      ensures llm.history == old(llm.history) + [SdkClient.Message(SdkClient.System, StructuredChat.SystemMessageOrDefault(systemMessage))]
      ensures llm.sent == old(llm.sent)
    {
      this.llm := llm;
      zodClient := new StructuredChat.ZodLlm(llm, systemMessage);
    }

    /**
     * chat: follows Heal. The history gains only the structured chat's
     * prompt; the recovery call, when there is one, sends the recovery
     * prompt with the recovery system message and leaves the history alone.
     */
    method Chat(lib: JsonLib, message: Json, schema: ZodSchema,
                chatReply: Settled<seq<SdkClient.CompletionChoice>>,
                recoveryReply: Settled<seq<SdkClient.CompletionChoice>>)
      returns (r: Settled<Outcome<Json, LlmError<string>>>)
      requires Valid()
      modifies llm
      ensures var run := Heal(lib, schema, SdkClient.SendResult(chatReply), SdkClient.SendResult(recoveryReply));
        && r == run.result
        && |llm.sent| == |old(llm.sent)| + run.chats + (if run.recovery.Some? then 1 else 0)
        && (run.chats == 0 ==> llm.history == old(llm.history))
        && (run.chats == 1 ==>
              llm.history == old(llm.history) + [SdkClient.Message(SdkClient.User,
                lib.stringify(StructuredChat.PromptObject(message, schema.openApi.value)))]
              && llm.sent[|old(llm.sent)|] == llm.history)
        && (run.recovery.Some? ==>
              llm.sent[|llm.sent| - 1] ==
                [SdkClient.Message(SdkClient.User, run.recovery.value), SdkClient.Message(SdkClient.System, RECOVERY_SYSTEM_MESSAGE)])
    {
      var expected := schema.openApi;
      if expected.Problem? {
        return Resolved(expected);
      }
      var response := zodClient.Chat(lib, message, schema, chatReply);
      if response.Rejected? {
        return Rejected(response.reason);
      }
      var inner := response.value;
      if inner.Success? {
        return Resolved(inner);
      }
      if inner.error.kind == SCHEMA_KIND {
        return Resolved(inner);
      }
      var prompt := RecoveryPrompt(lib, inner.error.value, inner.error.cause, expected);
      var recovery := llm.IncognitoChat(prompt, Some(RECOVERY_SYSTEM_MESSAGE), recoveryReply);
      if recovery.Rejected? {
        return Rejected(recovery.reason);
      }
      r := Resolved(RecoveryOutcome(lib, schema, recovery.value));
    }
  }
}
