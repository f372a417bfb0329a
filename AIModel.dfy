/**
 * The conversation history of `AIModel`: a list of chat messages that starts with the
 * system prompt and is only ever appended to. `chat` appends the user message (unless it
 * follows a tool call) and then the provider's reply; `add_tool_result` appends one tool
 * message. The provider call is an oracle input: the reply it returns, or the exception it
 * raises.
 */
module AIModel {
  import opened Wrappers
  import opened Json

  const SupportedProviderTypes: set<string> := {"openai", "deepseek"}

  function SystemMessage(prompt: string): Json
  {
    JObj([("role", JStr("system")), ("content", JStr(prompt))])
  }

  /** The user message; `send` may be None, which the message records as null. */
  function UserMessage(send: Option<string>): Json
  {
    JObj([("role", JStr("user")), ("content", if send.Some? then JStr(send.value) else JNull)])
  }

  function ToolMessage(toolCallId: string, content: string): Json
  {
    JObj([("role", JStr("tool")), ("tool_call_id", JStr(toolCallId)), ("content", JStr(content))])
  }

  /** What the provider helper does with the history. */
  datatype Provider = Answered(reply: Json) | ProviderRaised(reason: string)

  /** How `chat` ends: returning the reply, raising NotImplementedError for a provider type
      it does not know, or propagating the provider's exception. */
  datatype ChatOutcome = Replied(reply: Json) | NotImplemented(providerType: string) | Raised(reason: string)

  /** The history and outcome after `chat`. */
  function ChatNext(messages: seq<Json>, providerType: string, send: Option<string>, afterTool: bool, provider: Provider)
    : (seq<Json>, ChatOutcome)
  {
    var asked := if afterTool then messages else messages + [UserMessage(send)];
    if providerType !in SupportedProviderTypes then (asked, NotImplemented(providerType))
    else match provider
      case ProviderRaised(reason) => (asked, Raised(reason))
      case Answered(reply) => (asked + [reply], Replied(reply))
  }

  /** A successful `chat` grows the history by two (user message, then reply), or by one
      after a tool call, and returns exactly the reply it appended. */
  lemma ChatGrowth(messages: seq<Json>, providerType: string, send: Option<string>, afterTool: bool, provider: Provider)
    requires providerType in SupportedProviderTypes && provider.Answered?
    ensures var (m, r) := ChatNext(messages, providerType, send, afterTool, provider);
      && r == Replied(provider.reply)
      && |m| == |messages| + (if afterTool then 1 else 2)
      && m[|m| - 1] == r.reply
      && (!afterTool ==> m[|messages|] == UserMessage(send))
  {
  }

  /** An unknown provider type raises, after the user message has been appended (in the
      ordinary path) and without appending any reply. */
  lemma ChatUnsupported(messages: seq<Json>, providerType: string, send: Option<string>, afterTool: bool, provider: Provider)
    requires providerType !in SupportedProviderTypes
    ensures var (m, r) := ChatNext(messages, providerType, send, afterTool, provider);
      && r == NotImplemented(providerType)
      && m == (if afterTool then messages else messages + [UserMessage(send)])
  {
  }

  /** One operation on the history. */
  datatype Op =
    | Chat(send: Option<string>, afterTool: bool, provider: Provider)
    | AddToolResult(toolCallId: string, content: string)

  function Apply(messages: seq<Json>, providerType: string, op: Op): seq<Json>
  {
    match op
    case Chat(send, afterTool, provider) => ChatNext(messages, providerType, send, afterTool, provider).0
    case AddToolResult(id, content) => messages + [ToolMessage(id, content)]
  }

  /** The history after a run of operations. An exception ends the caller's turn but not the
      object: the history it leaves behind is where the next operation starts. */
  function Run(messages: seq<Json>, providerType: string, ops: seq<Op>): seq<Json>
    decreases |ops|
  {
    if ops == [] then messages else Run(Apply(messages, providerType, ops[0]), providerType, ops[1..])
  }

  /** The history is append-only: every earlier history, the system message included, is a
      prefix of every later one. */
  lemma {:induction false} RunExtends(messages: seq<Json>, providerType: string, ops: seq<Op>)
    ensures messages <= Run(messages, providerType, ops)
    decreases |ops|
  {
    if ops != [] {
      var next := Apply(messages, providerType, ops[0]);
      RunExtends(next, providerType, ops[1..]);
      assert messages <= next;
    }
  }

  /** The history object; `tools` and the client are passed to the provider and play no
      part in the history. */
  class AIModel {
    const providerType: string
    const systemPrompt: string
    var messages: seq<Json>

    /** The system message stays first. */
    predicate Valid()
      reads this
    {
      |messages| >= 1 && messages[0] == SystemMessage(systemPrompt)
    }

    constructor (providerType: string, systemPrompt: string)
      ensures this.providerType == providerType && this.systemPrompt == systemPrompt
      ensures messages == [SystemMessage(systemPrompt)]
      ensures Valid()
    {
      this.providerType := providerType;
      this.systemPrompt := systemPrompt;
      messages := [SystemMessage(systemPrompt)];
    }

    method Chat(send: Option<string>, afterTool: bool, provider: Provider) returns (outcome: ChatOutcome)
      requires Valid()
      modifies this
      ensures Valid()
      ensures (messages, outcome) == ChatNext(old(messages), providerType, send, afterTool, provider)
    {
      if !afterTool {
        messages := messages + [UserMessage(send)];
      }
      if providerType != "openai" && providerType != "deepseek" {
        return NotImplemented(providerType);
      }
      match provider
      case ProviderRaised(reason) =>
        return Raised(reason);
      case Answered(reply) =>
        messages := messages + [reply];
        return Replied(reply);
    }

    method AddToolResult(toolCallId: string, content: string)
      requires Valid()
      modifies this
      ensures Valid()
      ensures messages == old(messages) + [ToolMessage(toolCallId, content)]
    {
      messages := messages + [ToolMessage(toolCallId, content)];
    }
  }
}
