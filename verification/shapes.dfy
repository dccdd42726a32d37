/**
 * The records both translators read from the Codex side (output items,
 * usage) and write on the Chat-Completions side (tool calls, usage, the
 * reasoning field, the final message).
 */
module Shapes {
  import opened JsonTree

  /** One element of a reasoning item's `summary` or `content` array, or of a message's `content`. */
  datatype Part = Part(kind: string, text: string)

  /**
   * One element of `response.output` (or the `item` of response.output_item.done).
   * `kind` is the `type` field read as text ("" when absent); `summary` and
   * `content` are None unless the field is a JSON array; `text` is the flat
   * `text` field read as text ("" when absent).
   */
  datatype OutputItem = OutputItem(
    kind: string,
    callId: Option<string>,
    name: Option<string>,
    arguments: Option<string>,
    summary: Option<seq<Part>>,
    content: Option<seq<Part>>,
    text: string)

  /** `response.usage` on the Codex side; every counter is independently optional. */
  datatype VendorUsage = VendorUsage(
    inputTokens: Option<int>,
    outputTokens: Option<int>,
    totalTokens: Option<int>,
    reasoningTokens: Option<int>)

  /** `usage` on the Chat-Completions side; all None means the key is absent. */
  datatype Usage = Usage(
    promptTokens: Option<int>,
    completionTokens: Option<int>,
    totalTokens: Option<int>,
    reasoningTokens: Option<int>)

  const NoUsage := Usage(None, None, None, None)

  /**
   * Copies each counter that the Codex usage object carries into its
   * Chat-Completions field; an absent counter stays unset, never zero.
   */
  function ToChatUsage(u: Option<VendorUsage>): (r: Usage)
    ensures u.None? ==> r == NoUsage
    ensures u.Some? ==> r.promptTokens == u.value.inputTokens
    ensures u.Some? ==> r.completionTokens == u.value.outputTokens
    ensures u.Some? ==> r.totalTokens == u.value.totalTokens
    ensures u.Some? ==> r.reasoningTokens == u.value.reasoningTokens
  {
    match u
    case None => NoUsage
    case Some(v) => Usage(v.inputTokens, v.outputTokens, v.totalTokens, v.reasoningTokens)
  }

  /** `{id, type:"function", function:{name, arguments}}` */
  datatype ToolCall = ToolCall(id: string, name: string, arguments: string)

  /**
   * The `reasoning` field: a plain string (legacy/current), or the o3 shape
   * `{"content":[{"type":"text","text":…}]}`.
   */
  datatype ReasoningField = PlainReasoning(text: string) | StructuredReasoning(text: string)

  /**
   * The assistant message of a final response. `content` None is JSON null
   * or absent; an empty `toolCalls` means the key is absent.
   */
  datatype Message = Message(
    role: string,
    content: Option<string>,
    toolCalls: seq<ToolCall>,
    reasoningSummary: Option<string>,
    reasoning: Option<ReasoningField>)
}
