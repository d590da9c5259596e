/**
 * src/gpt-client.ts: the chat client built on the openai SDK, which the
 * structured chats use as their LLM interface. Its history only ever grows
 * at the end; `incognito_chat` sends a one-off list and leaves the history
 * alone.
 *
 * The SDK call is an input: every method that would send takes what
 * createChatCompletion settled with. The ghost field `sent` records the
 * message lists actually sent.
 */
module SdkClient {
  import opened Types

  datatype Role = System | User

  datatype Message = Message(role: Role, content: string)

  /** The part of a completion choice the client reads: `message?.content`. */
  datatype ReplyMessage = ReplyMessage(content: Option<string>)
  datatype CompletionChoice = CompletionChoice(message: Option<ReplyMessage>)

  /**
   * The text `send` resolves with: the first choice's content, or the empty
   * string when there is no choice, no message, no content or empty content.
   */
  function ReplyContent(choices: seq<CompletionChoice>): (r: string)
    ensures r != "" <==>
      && |choices| > 0
      && choices[0].message.Some?
      && choices[0].message.value.content.Some?
      && choices[0].message.value.content.value != ""
    ensures r != "" ==> r == choices[0].message.value.content.value
  {
    if |choices| > 0 && choices[0].message.Some? && choices[0].message.value.content.Some? then
      choices[0].message.value.content.value
    else
      ""
  }

  /** What `send` settles with: a rejection of the SDK call passes through, a reply becomes its text. */
  function SendResult(reply: Settled<seq<CompletionChoice>>): (r: Settled<string>)
    ensures r.Rejected? <==> reply.Rejected?
    ensures r.Rejected? ==> r.reason == reply.reason
    ensures r.Resolved? ==> r.value == ReplyContent(reply.value)
  {
    match reply
    case Rejected(e) => Rejected(e)
    case Resolved(choices) => Resolved(ReplyContent(choices))
  }

  /** A string is truthy when it is present and not empty. */
  predicate Truthy(s: Option<string>)
  {
    s.Some? && s.value != ""
  }

  /** The first entry's content, whatever its role (`history[0]?.content`). */
  function FirstContent(history: seq<Message>): Option<string>
  {
    if |history| > 0 then Some(history[0].content) else None
  }

  /**
   * The message list of `incognito_chat`: the user's message first, then a
   * system entry when there is a system text to use; the explicit one if it
   * is truthy, otherwise the content of the first history entry, whatever
   * role that entry has.
   */
  function IncognitoMessages(history: seq<Message>, text: string, system: Option<string>): (r: seq<Message>)
    ensures 1 <= |r| <= 2 && r[0] == Message(User, text)
    ensures |r| == 1 <==> !Truthy(system) && !Truthy(FirstContent(history))
    ensures |r| == 2 && Truthy(system) ==> r[1] == Message(System, system.value)
    ensures |r| == 2 && !Truthy(system) ==> r[1] == Message(System, history[0].content)
  {
    var systemText := if Truthy(system) then system else FirstContent(history);
    if Truthy(systemText) then [Message(User, text), Message(System, systemText.value)]
    else [Message(User, text)]
  }

  /**
   * The number of system entries. This client's Message type is not the
   * fetch client's (no assistant role, no optional fields), so the count and
   * its append law are stated for it separately.
   */
  function SystemCount(h: seq<Message>): nat
  {
    if h == [] then 0 else (if h[0].role == System then 1 else 0) + SystemCount(h[1..])
  }

  lemma {:induction false} SystemCountAppend(a: seq<Message>, b: seq<Message>)
    ensures SystemCount(a + b) == SystemCount(a) + SystemCount(b)
  {
    if a == [] {
      assert a + b == b;
    } else {
      assert (a + b)[0] == a[0] && (a + b)[1..] == a[1..] + b;
      SystemCountAppend(a[1..], b);
    }
  }

  /** set_system_message is not idempotent: two calls add two system entries. */
  lemma SetSystemMessageTwiceDuplicates(h: seq<Message>, first: string, second: string)
    ensures SystemCount(h + [Message(System, first)] + [Message(System, second)]) == SystemCount(h) + 2
  {
    SystemCountAppend(h, [Message(System, first)]);
    SystemCountAppend(h + [Message(System, first)], [Message(System, second)]);
  }

  class GptClient {
    var history: seq<Message>
    /** The SDK request options (model, temperature, ...), passed through untouched. */
    const options: map<string, Json>
    /** The message lists sent to the SDK so far. */
    ghost var sent: seq<seq<Message>>

    constructor (options: map<string, Json>)
      ensures history == [] && sent == [] && this.options == options
    {
      this.options := options;
      history := [];
      sent := [];
    }

    /** set_system_message: always appends a system entry. */
    method SetSystemMessage(text: string)
      modifies this
      ensures history == old(history) + [Message(System, text)]
      ensures sent == old(sent)
    {
      history := history + [Message(System, text)];
    }

    /** send: one SDK call with the given messages; empty content falls back to "". */
    method Send(messages: seq<Message>, reply: Settled<seq<CompletionChoice>>) returns (r: Settled<string>)
      modifies this
      ensures history == old(history)
      ensures sent == old(sent) + [messages]
      ensures r == SendResult(reply)
    {
      sent := sent + [messages];
      match reply
      case Rejected(e) =>
        r := Rejected(e);
      case Resolved(choices) =>
        var content := if |choices| > 0 && choices[0].message.Some? then choices[0].message.value.content else None;
        if !Truthy(content) {
          return Resolved("");
        }
        r := Resolved(content.value);
    }

    /** chat: appends the user's message and sends the whole updated history. */
    method Chat(text: string, reply: Settled<seq<CompletionChoice>>) returns (r: Settled<string>)
      modifies this
      ensures history == old(history) + [Message(User, text)]
      ensures sent == old(sent) + [history]
      ensures r == SendResult(reply)
    {
      history := history + [Message(User, text)];
      r := Send(history, reply);
    }

    /** incognito_chat: sends a one-off list built from the message and a system text; the history is untouched. */
    method IncognitoChat(text: string, system: Option<string>, reply: Settled<seq<CompletionChoice>>)
      returns (r: Settled<string>)
      modifies this
      ensures history == old(history)
      ensures sent == old(sent) + [IncognitoMessages(history, text, system)]
      ensures r == SendResult(reply)
    {
      var messages := [Message(User, text)];
      var systemMessage := if Truthy(system) then system else FirstContent(history);
      if Truthy(systemMessage) {
        messages := messages + [Message(System, systemMessage.value)];
      }
      assert messages == IncognitoMessages(history, text, system);
      r := Send(messages, reply);
    }
  }
}
