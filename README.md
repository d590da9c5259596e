# zod-mind, modelled in Dafny

zod-mind is a thin TypeScript layer over the OpenAI chat API and the `zod`
validation library. It asks a language model for an answer that fits a zod
schema, then parses and validates the answer. This project models the
deterministic logic around those calls and proves properties of it.

- **Two chat clients**, each a class whose state is a list of role-tagged messages.
  - `FetchClient.GptClient` (src/GPT_Client.ts) talks to the completions endpoint, can buffer, and classifies the first completion choice.
  - `SdkClient.GptClient` (src/gpt-client.ts) goes through the openai SDK and has a one-off `incognito_chat`.
- **Three structured-output pipelines**, each a fixed decision tree ending in a success/problem outcome.
  - `StructuredChat.ZodLlm` (src/zod-llm.ts) reads the `__AI_RESPONSE` field of a JSON reply.
  - `SelfHealing.ZodHealingLlm` (src/zod-healing-llm.ts) makes one recovery attempt.
  - `FunctionCallChat.ZodGpt` (src/Zod_GPT.ts) forces a `structured_response` function call.
- **`trim_line_whitespace`** (src/utils.ts), with its algebra.

The system's boundaries are inputs to the model:

- The network reply a client call would receive is a method parameter: a `Completion` for the fetch client, a settled list of choices for the SDK client.
- `JSON.parse` and `JSON.stringify` are the two function fields of `Types.JsonLib`.
- A zod schema is `Utils.ZodSchema`: what the schema translator makes of it, plus its `parse` function, which returns a value or throws.
- Each client keeps a ghost log `sent` of the requests it actually sent. The contracts count client round trips on this log.

Modules follow the source files: `Types` (src/types.ts and the JavaScript
runtime notions), `Utils`, `FetchClient`, `SdkClient`, `StructuredChat`,
`SelfHealing` and `FunctionCallChat`.

Where the code and its description disagree, the model follows the code.

- The healing chat makes exactly one recovery call. It has no attempt counter and no retry loop.
- There is no `invoke` or function-dispatch layer.

## Model

| member | source | states |
|---|---|---|
| Utils.LeadingEnd | src/utils.ts:17 | the scan from an index stops at the end of the string or at the first character that is not whitespace, and everything it passes over is whitespace |
| Utils.TrailingStart | src/utils.ts:17 | the backward scan stops at its lower bound or just after a character that is not whitespace, and everything it passes over is whitespace |
| Utils.Trim | src/utils.ts:17 | `String.prototype.trim`: the result is the contiguous part of the input that starts after the leading whitespace, everything dropped before and after it is whitespace, it is trimmed, it adds no line break, and it is the input itself iff the input is already trimmed |
| Utils.Split | src/utils.ts:16 | `split("\n")` yields at least one line, and no line contains a line break |
| Utils.Join | src/utils.ts:18 | `join("\n")`: the result starts with the first line and is as long as the lines together plus one separator between each two |
| Utils.SplitLineCount | src/utils.ts:16 | the number of lines is the number of line breaks plus one |
| Utils.JoinSplit | src/utils.ts:16-18 | joining the split lines with "\n" gives back the input |
| Utils.SplitJoin | src/utils.ts:16-18 | splitting a join of line-break-free lines gives back those lines |
| Utils.TrimIdempotent | src/utils.ts:17 | trimming twice equals trimming once |
| Utils.TrimLines | src/utils.ts:17 | `map(line => line.trim())`: as many lines as before, each trimmed and never longer than the line it came from |
| Utils.TrimLineWhitespace | src/utils.ts:14-19 | trim_line_whitespace: splitting the output on "\n" gives the trims of the input lines, line by line |
| Utils.TrimLineWhitespaceKeepsLineBreaks | src/utils.ts:14-19 | the output has as many line breaks as the input |
| Utils.TrimLineWhitespaceTrimsEveryLine | src/utils.ts:17 | no output line begins or ends with whitespace |
| Utils.TrimLineWhitespaceIdempotent | src/utils.ts:14-19 | applying trim_line_whitespace twice equals applying it once |
| Utils.TrimLineWhitespaceLength | src/utils.ts:14-19 | the output is never longer than the input; it has equal length, and is the input itself, iff every input line is already trimmed |
| FetchClient.StatusError | src/GPT_Client.ts:193-203 | every message starts with `Error <code>: `, where the code is the status itself except that 503 is reported as 500; 400, 429, 500 and 503 end in their fixed explanation and consist of head and explanation only; any other status gets its status text |
| FetchClient.KnownStatusIgnoresText | src/GPT_Client.ts:193-200 | for 400, 429, 500 and 503 the message does not depend on the status text |
| FetchClient.KnownStatusCodes | src/GPT_Client.ts:193-203 | exactly 400, 429, 500 and 503 have a fixed explanation |
| FetchClient.ServerErrorsShareMessage | src/GPT_Client.ts:196-198 | 503 and 500 give the same message, whatever their status texts |
| FetchClient.Decimal | src/GPT_Client.ts:202 | `${res.status}`: a non-empty string of decimal digits, with no leading zero, that denotes the status |
| FetchClient.Spread | src/GPT_Client.ts:166-170 | object spread: every key present in the later object wins, every absent key keeps the earlier object's value |
| FetchClient.SpreadIdentity | src/GPT_Client.ts:85-88 | spreading the empty configuration on either side changes nothing, so a client built without options has exactly the defaults |
| FetchClient.SpreadAssociative | src/GPT_Client.ts:166-170 | spreading the additional configuration over the client options, themselves spread over the defaults, is one spread of the merged overrides |
| FetchClient.CompletionsRequest | src/GPT_Client.ts:190-203 | a response resolves with its choices iff its status is 2xx; a non-ok status throws the status error; a network failure propagates |
| FetchClient.Classify | src/GPT_Client.ts:133-147 | a function call wins over content; non-empty content is a message carrying that content; a message with neither is the "without a function call or content" error |
| FetchClient.SendStep | src/GPT_Client.ts:125-147 | when not buffering: a request error propagates; no choice is the "No response from GPT" error with nothing appended; otherwise the first choice, and only it, is appended, and the answer is its classification |
| FetchClient.SendResult | src/GPT_Client.ts:118-147 | buffering yields the empty message and nothing else does; otherwise the answer is that of the round trip |
| FetchClient.FirstSystemIndex | src/GPT_Client.ts:104 | the index `find` stops at: a system entry with no system entry before it, or none when the history has no system entry |
| FetchClient.WithSystemMessage | src/GPT_Client.ts:103-113 | with a system entry: same length, only that entry changes, and only its content becomes the new text; without one: a system entry with the text goes in front and the old entries shift right by one |
| FetchClient.SetSystemMessageCount | src/GPT_Client.ts:103-113 | set_system_message keeps the number of system entries, or makes it one when there was none |
| FetchClient.SetSystemMessageTwice | src/GPT_Client.ts:103-113 | two set_system_message calls equal one call with the second value |
| FetchClient.SingleSystemEntryCarriesLastValue | src/GPT_Client.ts:103-113 | from a history with at most one system entry, two calls leave exactly one system entry, and it carries the second value |
| FetchClient.ReplayKeepsOneSystemEntry | src/GPT_Client.ts:96-157 | any history built by set_system_message, set_agent_message, chat and the replies send appends holds at most one system entry, provided no reply has the system role |
| FetchClient.GptClient.constructor | src/GPT_Client.ts:84-89 | the options are the given ones spread over `model: 'gpt-3.5-turbo'`; the history is empty and the client is not buffering |
| FetchClient.GptClient.Buffer | src/GPT_Client.ts:91-94 | sets the buffering flag, returns the same client and changes nothing else |
| FetchClient.GptClient.SetAgentMessage | src/GPT_Client.ts:96-101 | appends exactly one assistant entry and changes nothing else |
| FetchClient.GptClient.FindSystemEntry | src/GPT_Client.ts:104 | the linear search returns the first system entry's index, as FirstSystemIndex defines it |
| FetchClient.GptClient.SetSystemMessage | src/GPT_Client.ts:103-113 | the new history is WithSystemMessage of the old one; nothing else changes |
| FetchClient.GptClient.Send | src/GPT_Client.ts:116-148 | when buffering: the empty message, with no request and no history change; otherwise exactly one request (the client options with the additional config spread over them, plus the messages), the history extended as SendStep says, and SendResult's answer |
| FetchClient.GptClient.Chat | src/GPT_Client.ts:150-157 | appends the user entry first, then sends the whole updated history; when buffering, nothing more is appended and the answer is the empty message |
| SdkClient.ReplyContent | src/gpt-client.ts:43-48 | the text is non-empty iff the first choice has a message with non-empty content, and then it is that content; otherwise it is the empty string rather than an error |
| SdkClient.SendResult | src/gpt-client.ts:38-49 | an SDK rejection propagates unchanged; a reply resolves with its ReplyContent |
| SdkClient.IncognitoMessages | src/gpt-client.ts:53-66 | the list starts with the user message; it has length 1 iff neither the system argument nor `history[0]?.content` is truthy; otherwise the second entry is a system entry with the system argument when that is truthy, else with the first history entry's content, whatever role that entry has |
| SdkClient.SetSystemMessageTwiceDuplicates | src/gpt-client.ts:22-27 | two set_system_message calls add two system entries, so the call is not idempotent |
| SdkClient.GptClient.constructor | src/gpt-client.ts:20 | keeps the options; the history starts empty |
| SdkClient.GptClient.SetSystemMessage | src/gpt-client.ts:22-27 | always appends one system entry |
| SdkClient.GptClient.Send | src/gpt-client.ts:38-49 | exactly one SDK call with the given messages; the history is unchanged; the answer is SendResult's |
| SdkClient.GptClient.Chat | src/gpt-client.ts:29-36 | appends the user entry and sends the whole updated history |
| SdkClient.GptClient.IncognitoChat | src/gpt-client.ts:51-69 | sends exactly the IncognitoMessages list and leaves the history unchanged |
| StructuredChat.SystemMessageOrDefault | src/zod-llm.ts:7-25 | the given system message, or the default one when none is given, and that default is unchanged by another trim_line_whitespace |
| StructuredChat.AiResponseField | src/zod-llm.ts:51 | `json.__AI_RESPONSE` throws iff the parsed value is null; it is present iff the value is an object with that key, and then it is that field |
| StructuredChat.PromptObject | src/zod-llm.ts:40-43 | the prompt object has exactly the keys `prompt` and `json_schema`, holding the message and the translated schema |
| StructuredChat.ReplyOutcome | src/zod-llm.ts:49-58 | a success iff the reply parses and its `__AI_RESPONSE` field validates, carrying the validated value; any failure is a 'parse' problem whose value is the raw reply |
| StructuredChat.FaithfulReplySucceeds | src/zod-llm.ts:49-52 | a reply that is the JSON text of `{"__AI_RESPONSE": v}` succeeds with v, when JSON reads back what it wrote and zod accepts v as it is |
| StructuredChat.ChatResult | src/zod-llm.ts:46-58 | a client rejection propagates; a reply becomes its ReplyOutcome |
| StructuredChat.ZodLlm.constructor | src/zod-llm.ts:25-27 | calls set_system_message exactly once, with the default message when none is given, and sends nothing |
| StructuredChat.ZodLlm.Chat | src/zod-llm.ts:33-62 | a translation problem is returned as it is, with no client call; otherwise exactly one client chat, whose prompt is the JSON text of the prompt object, and the result is ChatResult |
| SelfHealing.RecoveryPrompt | src/zod-healing-llm.ts:95-100 | the prompt is the DATA section with the failed reply, the `Zod.js ERROR` section with the exception, then the `JSON SCHEMA` section, in that order, ending in `RESPONSE:` |
| SelfHealing.Decide | src/zod-healing-llm.ts:82-100 | a success, and a problem of kind 'schema', are returned as they are; any other problem leads to recovery with the RecoveryPrompt built from it |
| SelfHealing.RecoveryOutcome | src/zod-healing-llm.ts:106-114 | a success iff the recovery text parses and validates, carrying the validated value; otherwise a "Recovery failed." 'parse' problem whose value is the recovery text |
| SelfHealing.FaithfulRecoverySucceeds | src/zod-healing-llm.ts:106-107 | a recovery text that is the JSON text of a value zod accepts as it is succeeds with that value |
| SelfHealing.RecoveryResult | src/zod-healing-llm.ts:104-114 | a rejection of the recovery call propagates, outside the try; a recovery text becomes its RecoveryOutcome |
| SelfHealing.Heal | src/zod-healing-llm.ts:75-116 | a translation problem is returned with no call; otherwise exactly one structured chat, and a recovery call iff its reply fails to parse or validate, so at most one; the 'schema' branch is never taken, and any final problem comes from the recovery answer |
| SelfHealing.ZodHealingLlm.constructor | src/zod-healing-llm.ts:71-73 | wraps a structured chat around the same client, which gets its system message once |
| SelfHealing.ZodHealingLlm.Chat | src/zod-healing-llm.ts:75-116 | the result is Heal's; the client sends one request per chat and recovery Heal counts; the recovery request is the recovery prompt with the recovery system message, and only the structured chat's prompt is added to the history |
| FunctionCallChat.SystemMessageOrDefault | src/Zod_GPT.ts:12-16 | the given system message, or "You're a helpful AI Assistant" after trim_line_whitespace when none is given, and that default is unchanged by another trim_line_whitespace |
| FunctionCallChat.StructuredRequest | src/Zod_GPT.ts:22-33 | the request declares exactly one function, `structured_response`, with the translated schema as its parameters, and forces a call to that same function |
| FunctionCallChat.StructuredRequestOverridesOptions | src/Zod_GPT.ts:22-33 | spread over any client options, the request still declares only `structured_response` and forces it, and it keeps the client's model |
| FunctionCallChat.ResponseOutcome | src/Zod_GPT.ts:36-56 | a message is a success carrying the raw text, unvalidated; a function call succeeds iff its arguments parse and validate, with `{function: name, data: validated value}`; any failure is a 'parse' problem whose value is the whole response |
| FunctionCallChat.FaithfulCallSucceeds | src/Zod_GPT.ts:40-47 | a call whose arguments are the JSON text of a value zod accepts as it is succeeds with the called name and that value |
| FunctionCallChat.ChatResult | src/Zod_GPT.ts:35-59 | a rejection of the client's chat propagates; an answer becomes its ResponseOutcome |
| FunctionCallChat.ZodGpt.constructor | src/Zod_GPT.ts:16-18 | calls the client's set_system_message exactly once, with the default when none is given, and sends nothing |
| FunctionCallChat.ZodGpt.Chat | src/Zod_GPT.ts:20-59 | exactly one client chat; when the client is not buffering, the request it sends declares only `structured_response` and forces it; the result is ChatResult of the client's answer |

## Left out

- The HTTP exchange of `completions_request` is left out: `fetch`, `pRetry` with 10 retries, the headers, the API key and `res.json()`. What the exchange produces is an input. A network failure that outlasts the retries is one input case.
- The openai SDK call `createChatCompletion` is left out. What it settles with is an input.
- `JSON.parse`, `JSON.stringify` and `zod_schema.parse` are foreign libraries, modelled as uninterpreted functions. Indentation, key order and the text of the exceptions they throw are therefore not modelled.
- `zod_to_open_api` (src/utils.ts:5-12) wraps `zod-to-json-schema`. It is modelled as the translation outcome carried by each schema.
- The callers test the translator's result for `.status === 'problem'` and read `.value`, so the model treats it as a success/problem outcome. Its JSON form, which Zod_GPT passes as `parameters` and the healing prompt stringifies, is taken to be `{status, value}` or `{status, message, error: {type, value, error}}`. The `success` and `problem` helpers are not part of this model.
- The third argument of `problem(...)` (the raw exception) does not appear in the modelled outcome; the error record keeps the same exception as its `cause`.
- src/logger.ts (console output) and every `mind.debug` call are left out.
- src/zod-llm-error.ts is an Error subclass with no logic and is not part of this model.
- index.ts is re-exports only and is not part of this model. src/types.ts is used as the `Types.Json` datatype.
- The examples/ scripts are demo harnesses. The `invoke` surface they use does not exist in the source.
- JSON numbers are kept as integers. Nothing in the core does arithmetic on them.
- Only `model`, `functions` and `function_call` of the request configuration are modelled. A `messages` key in the additional configuration, which would override the history in the request body, is not.
- Concurrency is left out. Interleaved chats on one client cannot be expressed, because every method completes in one step.
- Strings are sequences of Unicode characters here, while JavaScript strings are sequences of UTF-16 code units; lengths differ for characters outside the Basic Multilingual Plane, and lone surrogates are not modelled. Every character trim removes is a single code unit, so no stated property depends on the difference.
- Zod_GPT's fall-through for an answer that is neither a message nor a function call (it returns undefined) cannot occur, because the client's answer type has exactly those two cases.
