/**
 * src/GPT_Client.ts: the chat client that talks to the completions endpoint
 * over fetch. It keeps the conversation as a list of role-tagged messages,
 * can buffer (answer without a round trip), and classifies the first
 * completion choice into a message or a function call.
 *
 * The HTTP exchange itself is an input: every method that would send a
 * request takes the `Completion` the endpoint produced. The ghost field
 * `sent` records the requests the client actually sent.
 */
module FetchClient {
  import opened Types
  import opened Utils

  datatype Role = System | User | Assistant

  datatype FunctionCall = FunctionCall(name: string, arguments: string)

  datatype Message = Message(
    role: Role,
    content: Option<string>,
    name: Option<string>,
    functionCall: Option<FunctionCall>)

  /** GPT_Response: what `chat` resolves with. */
  datatype GptResponse = MessageResponse(data: string) | FunctionCallResponse(call: FunctionCall)

  datatype GptFunction = GptFunction(name: string, description: string, parameters: Json)

  datatype FunctionCallMode = Auto | NoCall | Named(name: string)

  /** The part of GPT_Request_Config the model follows; a None field is an absent key. */
  datatype RequestConfig = RequestConfig(
    model: Option<string>,
    functions: Option<seq<GptFunction>>,
    functionCall: Option<FunctionCallMode>)

  /** A request body: the merged configuration and the messages sent. */
  datatype Request = Request(config: RequestConfig, messages: seq<Message>)

  datatype Choice = Choice(index: int, message: Message, finishReason: string)

  /** What the HTTP exchange produced: a response with its status, or a network failure that outlasted the retries. */
  datatype Completion =
    | HttpReply(status: nat, statusText: string, choices: seq<Choice>)
    | NetworkFailure(reason: string)

  const GPT_DEFAULTS := RequestConfig(Some("gpt-3.5-turbo"), None, None)
  const NO_CONFIG := RequestConfig(None, None, None)

  const NO_CHOICE_ERROR := "No response from GPT"
  const EMPTY_CHOICE_ERROR := "Received a response, but without a function call or content."

  /**
   * Object spread `{...base, ...over}`: every key present in `over` wins,
   * every key absent from `over` keeps its value from `base`.
   */
  function Spread(base: RequestConfig, over: RequestConfig): (r: RequestConfig)
    ensures over.model.Some? ==> r.model == over.model
    ensures over.model.None? ==> r.model == base.model
    ensures over.functions.Some? ==> r.functions == over.functions
    ensures over.functions.None? ==> r.functions == base.functions
    ensures over.functionCall.Some? ==> r.functionCall == over.functionCall
    ensures over.functionCall.None? ==> r.functionCall == base.functionCall
  {
    RequestConfig(
      if over.model.Some? then over.model else base.model,
      if over.functions.Some? then over.functions else base.functions,
      if over.functionCall.Some? then over.functionCall else base.functionCall)
  }

  function UserMessage(text: string): Message
  {
    Message(User, Some(text), None, None)
  }

  function AgentMessage(text: string): Message
  {
    Message(Assistant, Some(text), None, None)
  }

  function SystemMessage(text: string): Message
  {
    Message(System, Some(text), None, None)
  }

  // ---------------------------------------------------------------------
  // The status-to-error mapping of a non-ok response.
  // ---------------------------------------------------------------------

  function Digit(d: nat): char
    requires d < 10
  {
    "0123456789"[d]
  }

  /** The number a string of decimal digits denotes. */
  function DigitsValue(s: string): int
  {
    if s == [] then 0 else DigitsValue(s[..|s| - 1]) * 10 + (s[|s| - 1] as int - '0' as int)
  }

  /**
   * A non-negative number in a template literal: decimal digits with no
   * leading zero, which denote the number.
   */
  function Decimal(n: nat): (r: string)
    ensures |r| >= 1
    ensures forall i :: 0 <= i < |r| ==> '0' <= r[i] <= '9'
    ensures |r| > 1 ==> r[0] != '0'
    ensures DigitsValue(r) == n
  {
    if n < 10 then
      var r := [Digit(n)];
      assert r[..0] == [];
      r
    else
      var r := Decimal(n / 10) + [Digit(n % 10)];
      assert r[..|r| - 1] == Decimal(n / 10);
      r
  }

  /** Spreading the empty configuration on either side changes nothing. */
  lemma SpreadIdentity(c: RequestConfig)
    ensures Spread(c, NO_CONFIG) == c && Spread(NO_CONFIG, c) == c
  {
  }

  /** Successive spreads compose: `{...{...a, ...b}, ...c}` is `{...a, ...{...b, ...c}}`. */
  lemma SpreadAssociative(a: RequestConfig, b: RequestConfig, c: RequestConfig)
    ensures Spread(Spread(a, b), c) == Spread(a, Spread(b, c))
  {
  }

  /** The head every status error message starts with: `Error <code>: `. */
  function ErrorHead(code: nat): string
  {
    "Error " + Decimal(code) + ": "
  }

  const TOO_MANY_REQUESTS := "Too many requests. Please slow down your request rate."
  const SERVER_ERROR := "Server error. Please try again later."
  const BAD_REQUEST := "Bad request. Please check your request data."

  /** The fixed explanation of a known status code, and the code the message names for it. */
  function KnownStatus(status: nat): Option<(nat, string)>
  {
    if status == 429 then Some((429, TOO_MANY_REQUESTS))
    else if status == 503 || status == 500 then Some((500, SERVER_ERROR))
    else if status == 400 then Some((400, BAD_REQUEST))
    else None
  }

  /**
   * The message of the error thrown for a non-ok response. Every message
   * names a status code; it is the response's own code except for 503,
   * which is reported as a server error under 500. The known codes carry
   * their fixed explanation, whatever the status text; every other code
   * carries the response's status text.
   */
  function StatusError(status: nat, statusText: string): (r: string)
    ensures StartsWith(r, ErrorHead(if status == 503 then 500 else status))
    ensures KnownStatus(status).Some? ==>
      && EndsWith(r, KnownStatus(status).value.1)
      && |r| == |ErrorHead(KnownStatus(status).value.0)| + |KnownStatus(status).value.1|
    ensures KnownStatus(status).None? ==> r == ErrorHead(status) + statusText
  {
    match KnownStatus(status)
    case Some((code, explanation)) =>
      var r := ErrorHead(code) + explanation;
      assert r[|r| - |explanation|..] == explanation;
      r
    case None => ErrorHead(status) + statusText
  }

  /** For the known codes the status text makes no difference. */
  lemma KnownStatusIgnoresText(status: nat, text1: string, text2: string)
    requires status in {400, 429, 500, 503}
    ensures StatusError(status, text1) == StatusError(status, text2)
  {
  }

  /** Exactly 400, 429, 500 and 503 are known. */
  lemma KnownStatusCodes(status: nat)
    ensures KnownStatus(status).Some? <==> status in {400, 429, 500, 503}
  {
  }

  /** Two server errors cannot be told apart. */
  lemma ServerErrorsShareMessage(text1: string, text2: string)
    ensures StatusError(503, text1) == StatusError(500, text2)
  {
  }

  /** completions_request: the choices of an ok (2xx) response, or the error it throws. */
  function CompletionsRequest(c: Completion): (r: Settled<seq<Choice>>)
    ensures r.Resolved? <==> c.HttpReply? && 200 <= c.status <= 299
    ensures r.Resolved? ==> r.value == c.choices
    ensures c.NetworkFailure? ==> r == Rejected(c.reason)
    ensures c.HttpReply? && !(200 <= c.status <= 299) ==> r == Rejected(StatusError(c.status, c.statusText))
  {
    match c
    case NetworkFailure(reason) => Rejected(reason)
    case HttpReply(status, statusText, choices) =>
      if 200 <= status <= 299 then Resolved(choices) else Rejected(StatusError(status, statusText))
  }

  /**
   * The classification of the first choice's message: a function call wins
   * over content, non-empty content is a message, and a message with
   * neither is an error. A classified message is never empty.
   */
  function Classify(m: Message): (r: Settled<GptResponse>)
    ensures r.Resolved? && r.value.FunctionCallResponse? <==> m.functionCall.Some?
    ensures m.functionCall.Some? ==> r.value.call == m.functionCall.value
    ensures r.Resolved? && r.value.MessageResponse? ==>
      m.content.Some? && r.value.data == m.content.value && r.value.data != ""
    ensures r.Rejected? <==> m.functionCall.None? && (m.content.None? || m.content.value == "")
    ensures r.Rejected? ==> r.reason == EMPTY_CHOICE_ERROR
  {
    if m.functionCall.Some? then Resolved(FunctionCallResponse(m.functionCall.value))
    else if m.content.Some? && m.content.value != "" then Resolved(MessageResponse(m.content.value))
    else Rejected(EMPTY_CHOICE_ERROR)
  }

  /**
   * A round trip of `send` when not buffering: what it settles with, and the
   * messages it appends to the history. The first choice, and only it, is
   * recorded whenever there is one, also when its classification fails; a
   * resolved answer is always the classification of the recorded reply.
   */
  function SendStep(c: Completion): (r: (Settled<GptResponse>, seq<Message>))
    ensures |r.1| <= 1
    ensures |r.1| == 1 <==> CompletionsRequest(c).Resolved? && |CompletionsRequest(c).value| > 0
    ensures |r.1| == 1 ==> r.1[0] == CompletionsRequest(c).value[0].message && r.0 == Classify(r.1[0])
    ensures CompletionsRequest(c).Rejected? ==> r.0 == Rejected(CompletionsRequest(c).reason)
    ensures CompletionsRequest(c) == Resolved([]) ==> r.0 == Rejected(NO_CHOICE_ERROR)
    ensures r.0.Resolved? ==> |r.1| == 1
  {
    match CompletionsRequest(c)
    case Rejected(e) => (Rejected(e), [])
    case Resolved(choices) =>
      if |choices| == 0 then (Rejected(NO_CHOICE_ERROR), [])
      else (Classify(choices[0].message), [choices[0].message])
  }

  /** What `send` settles with, buffering or not. An empty message comes only from buffering. */
  function SendResult(buffering: bool, c: Completion): (r: Settled<GptResponse>)
    ensures buffering ==> r == Resolved(MessageResponse(""))
    ensures r == Resolved(MessageResponse("")) ==> buffering
    ensures !buffering ==> r == SendStep(c).0
  {
    if buffering then Resolved(MessageResponse("")) else SendStep(c).0
  }

  // ---------------------------------------------------------------------
  // The history operations as functions on the message list.
  // ---------------------------------------------------------------------

  /** The index `history.find` stops at: the first system entry, if any. */
  function FirstSystemIndex(h: seq<Message>): (r: Option<nat>)
    ensures r.Some? ==> r.value < |h| && h[r.value].role == System
    ensures r.Some? ==> forall j :: 0 <= j < r.value ==> h[j].role != System
    ensures r.None? ==> forall j :: 0 <= j < |h| ==> h[j].role != System
  {
    if h == [] then None
    else if h[0].role == System then Some(0)
    else match FirstSystemIndex(h[1..])
      case None => None
      case Some(k) => Some(k + 1)
  }

  /**
   * set_system_message on a history: the first system entry gets the new
   * content and nothing else changes, or, without a system entry, a new one
   * goes in front of the others.
   */
  function WithSystemMessage(h: seq<Message>, text: string): (r: seq<Message>)
    ensures FirstSystemIndex(h).Some? ==>
      var i := FirstSystemIndex(h).value;
      && |r| == |h|
      && r[i] == h[i].(content := Some(text))
      && forall j :: 0 <= j < |h| && j != i ==> r[j] == h[j]
    ensures FirstSystemIndex(h).None? ==>
      |r| == |h| + 1 && r[0] == SystemMessage(text) && r[1..] == h
  {
    match FirstSystemIndex(h)
    case Some(i) => h[i := h[i].(content := Some(text))]
    case None => [SystemMessage(text)] + h
  }

  function SystemCount(h: seq<Message>): nat
  {
    if h == [] then 0 else (if h[0].role == System then 1 else 0) + SystemCount(h[1..])
  }

  lemma {:induction false} SystemCountAppend(a: seq<Message>, b: seq<Message>)
    ensures SystemCount(a + b) == SystemCount(a) + SystemCount(b)
  {
    if a == [] {
      assert a + b == b;
    } else {
      assert (a + b)[0] == a[0] && (a + b)[1..] == a[1..] + b;
      SystemCountAppend(a[1..], b);
    }
  }

  lemma {:induction false} SystemCountNone(h: seq<Message>)
    ensures SystemCount(h) == 0 <==> forall j :: 0 <= j < |h| ==> h[j].role != System
  {
    if h != [] {
      SystemCountNone(h[1..]);
      assert forall j :: 1 <= j < |h| ==> h[j] == h[1..][j - 1];
    }
  }

  /** Replacing a system entry by another system entry keeps the count. */
  lemma {:induction false} SystemCountUpdate(h: seq<Message>, i: nat, x: Message)
    requires i < |h| && h[i].role == System && x.role == System
    ensures SystemCount(h[i := x]) == SystemCount(h)
  {
    if i > 0 {
      assert h[i := x][1..] == h[1..][i - 1 := x];
      SystemCountUpdate(h[1..], i - 1, x);
    }
  }

  /** set_system_message leaves the number of system entries alone, or makes it one when there was none. */
  lemma SetSystemMessageCount(h: seq<Message>, text: string)
    ensures SystemCount(WithSystemMessage(h, text)) == if SystemCount(h) == 0 then 1 else SystemCount(h)
  {
    SystemCountNone(h);
    match FirstSystemIndex(h)
    case Some(i) =>
      SystemCountUpdate(h, i, h[i].(content := Some(text)));
    case None =>
      SystemCountAppend([SystemMessage(text)], h);
  }

  /** Setting the system message twice is setting it once, to the second value. */
  lemma SetSystemMessageTwice(h: seq<Message>, first: string, second: string)
    ensures WithSystemMessage(WithSystemMessage(h, first), second) == WithSystemMessage(h, second)
  {
    var h1 := WithSystemMessage(h, first);
    match FirstSystemIndex(h)
    case Some(i) =>
      assert FirstSystemIndex(h1) == Some(i) by {
        var k := FirstSystemIndex(h1);
        assert k.Some? by { assert h1[i].role == System; }
      }
    case None =>
      assert FirstSystemIndex(h1) == Some(0);
  }

  /** With at most one system entry, only the entry `find` locates is a system entry. */
  lemma {:induction false} OnlySystemEntry(h: seq<Message>)
    requires SystemCount(h) <= 1 && FirstSystemIndex(h).Some?
    ensures forall j :: 0 <= j < |h| && j != FirstSystemIndex(h).value ==> h[j].role != System
  {
    var i := FirstSystemIndex(h).value;
    assert h == h[..i] + h[i..];
    assert h[i..] == [h[i]] + h[i + 1..];
    SystemCountAppend(h[..i], h[i..]);
    SystemCountAppend([h[i]], h[i + 1..]);
    SystemCountNone(h[i + 1..]);
    assert forall j :: i < j < |h| ==> h[j] == h[i + 1..][j - i - 1];
  }

  /**
   * From a history with at most one system entry, two set_system_message
   * calls leave exactly one system entry, carrying the second value.
   */
  lemma SingleSystemEntryCarriesLastValue(h: seq<Message>, first: string, second: string)
    requires SystemCount(h) <= 1
    ensures var r := WithSystemMessage(WithSystemMessage(h, first), second);
      && SystemCount(r) == 1
      && forall j :: 0 <= j < |r| && r[j].role == System ==> r[j].content == Some(second)
  {
    SetSystemMessageTwice(h, first, second);
    var r := WithSystemMessage(h, second);
    SetSystemMessageCount(h, second);
    SystemCountNone(r);
    OnlySystemEntry(r);
  }

  /** One history-changing call of the client. */
  datatype Step =
    | SetSystem(text: string)
    | SetAgent(text: string)
    | UserTurn(text: string)
    | ReplyTurn(reply: Message)

  function Apply(h: seq<Message>, step: Step): seq<Message>
  {
    match step
    case SetSystem(text) => WithSystemMessage(h, text)
    case SetAgent(text) => h + [AgentMessage(text)]
    case UserTurn(text) => h + [UserMessage(text)]
    case ReplyTurn(reply) => h + [reply]
  }

  /** The history after a sequence of calls on a fresh client. */
  function Replay(steps: seq<Step>): seq<Message>
  {
    if steps == [] then [] else Apply(Replay(steps[..|steps| - 1]), steps[|steps| - 1])
  }

  /**
   * A history built only by these calls, where no reply the endpoint sends
   * back has the system role, holds at most one system entry.
   */
  lemma {:induction false} ReplayKeepsOneSystemEntry(steps: seq<Step>)
    requires forall k :: 0 <= k < |steps| && steps[k].ReplyTurn? ==> steps[k].reply.role != System
    ensures SystemCount(Replay(steps)) <= 1
  {
    if steps != [] {
      var prefix := steps[..|steps| - 1];
      var h := Replay(prefix);
      ReplayKeepsOneSystemEntry(prefix);
      match steps[|steps| - 1]
      case SetSystem(text) =>
        SetSystemMessageCount(h, text);
      case SetAgent(text) =>
        SystemCountAppend(h, [AgentMessage(text)]);
      case UserTurn(text) =>
        SystemCountAppend(h, [UserMessage(text)]);
      case ReplyTurn(reply) =>
        SystemCountAppend(h, [reply]);
    }
  }

  // ---------------------------------------------------------------------
  // The client.
  // ---------------------------------------------------------------------

  class GptClient {
    var history: seq<Message>
    var options: RequestConfig
    var isBuffering: bool
    /** The requests sent to the endpoint so far. */
    ghost var sent: seq<Request>

    /** The given options spread over the defaults; an empty history, not buffering. */
    constructor (config: Option<RequestConfig>)
      ensures history == [] && !isBuffering && sent == []
      ensures options == Spread(GPT_DEFAULTS, if config.Some? then config.value else NO_CONFIG)
    {
      history := [];
      isBuffering := false;
      options := Spread(GPT_DEFAULTS, if config.Some? then config.value else NO_CONFIG);
      sent := [];
    }

    /** buffer: switches buffering and returns the same client. */
    method Buffer(enable: bool) returns (self: GptClient)
      modifies this
      ensures self == this && isBuffering == enable
      ensures history == old(history) && options == old(options) && sent == old(sent)
    {
      isBuffering := enable;
      self := this;
    }

    /** set_agent_message: one assistant entry at the end. */
    method SetAgentMessage(text: string)
      modifies this
      ensures history == old(history) + [AgentMessage(text)]
      ensures isBuffering == old(isBuffering) && options == old(options) && sent == old(sent)
    {
      history := history + [AgentMessage(text)];
    }

    /** `history.find(message => message.role === 'system')`, as an index. */
    method FindSystemEntry() returns (found: Option<nat>)
      ensures found == FirstSystemIndex(history)
    {
      var i := 0;
      while i < |history|
        invariant 0 <= i <= |history|
        invariant forall j :: 0 <= j < i ==> history[j].role != System
      {
        if history[i].role == System {
          return Some(i);
        }
        i := i + 1;
      }
      return None;
    }

    /** set_system_message: overwrites the first system entry's content, or puts a system entry in front. */
    method SetSystemMessage(text: string)
      modifies this
      ensures history == WithSystemMessage(old(history), text)
      ensures isBuffering == old(isBuffering) && options == old(options) && sent == old(sent)
    {
      var found := FindSystemEntry();
      match found
      case Some(i) =>
        history := history[i := history[i].(content := Some(text))];
      case None =>
        history := [SystemMessage(text)] + history;
    }

    /**
     * send: when buffering, an empty message and nothing else; otherwise one
     * request with the messages and the merged configuration, the first
     * choice appended to the history, and its classification.
     */
    method Send(messages: seq<Message>, additional: RequestConfig, completion: Completion)
      returns (r: Settled<GptResponse>)
      modifies this
      ensures isBuffering == old(isBuffering) && options == old(options)
      ensures r == SendResult(old(isBuffering), completion)
      ensures old(isBuffering) ==> history == old(history) && sent == old(sent)
      ensures !old(isBuffering) ==>
        && sent == old(sent) + [Request(Spread(options, additional), messages)]
        && history == old(history) + SendStep(completion).1
    {
      if isBuffering {
        return Resolved(MessageResponse(""));
      }
      sent := sent + [Request(Spread(options, additional), messages)];
      var response := CompletionsRequest(completion);
      if response.Rejected? {
        return Rejected(response.reason);
      }
      if |response.value| == 0 {
        return Rejected(NO_CHOICE_ERROR);
      }
      var choice := response.value[0];
      history := history + [choice.message];
      r := Classify(choice.message);
    }

    /** chat: appends the user's message, then sends the whole history. */
    method Chat(text: string, additional: RequestConfig, completion: Completion)
      returns (r: Settled<GptResponse>)
      modifies this
      ensures isBuffering == old(isBuffering) && options == old(options)
      ensures r == SendResult(old(isBuffering), completion)
      ensures old(isBuffering) ==> history == old(history) + [UserMessage(text)] && sent == old(sent)
      ensures !old(isBuffering) ==>
        && sent == old(sent) + [Request(Spread(options, additional), old(history) + [UserMessage(text)])]
        && history == old(history) + [UserMessage(text)] + SendStep(completion).1
    {
      history := history + [UserMessage(text)];
      r := Send(history, additional, completion);
    }
  }
}
