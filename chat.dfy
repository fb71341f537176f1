/**
 * The chat-completion vocabulary shared by the agents: messages, tool
 * calls and the model's reply. The model itself is never part of this
 * model; the agents receive its replies through oracle parameters.
 */
module Chat {
  import opened Wrappers
  import opened Json

  /** A tool call the model asks for; `arguments` is its decoded argument object. */
  datatype ToolCall = ToolCall(id: string, name: string, arguments: Json)

  /** `response.choices[0].message`: the text (maybe none) and the requested tool calls (maybe none). */
  datatype Reply = Reply(content: Option<string>, toolCalls: seq<ToolCall>)

  /** Token counts reported with a completion, when the provider reports them. */
  datatype Usage = Usage(promptTokens: nat, completionTokens: nat)

  /** A whole completion response: the reply and its usage. */
  datatype Completion = Completion(reply: Reply, usage: Option<Usage>)

  datatype Message =
    | System(content: string)
    | User(content: string)
    | Assistant(reply: Reply)
    | Tool(toolCallId: string, name: string, content: string)

  /** Python truthiness of an optional string: `None` and `""` are false. */
  predicate Truthy(s: Option<string>) {
    s.Some? && s.value != ""
  }
}
