/** Chat messages as the agents see them: LangChain's human, AI, system and
    tool messages. Only AI messages carry a `tool_calls` attribute. */
module Messages {
  datatype ToolCall = ToolCall(name: string, id: string)

  datatype Message =
    | HumanMessage(content: string)
    | AIMessage(content: string, toolCalls: seq<ToolCall>)
    | SystemMessage(content: string)
    | ToolMessage(content: string, toolCallId: string)

  /** `hasattr(m, 'tool_calls') and m.tool_calls`. */
  predicate HasToolCalls(m: Message) {
    m.AIMessage? && |m.toolCalls| > 0
  }

  /** Number of messages in a history that carry tool calls. */
  function CountToolCallers(ms: seq<Message>): (n: nat)
    ensures n <= |ms|
    ensures n == 0 <==> forall i :: 0 <= i < |ms| ==> !HasToolCalls(ms[i])
  {
    if |ms| == 0 then 0
    else CountToolCallers(ms[..|ms| - 1]) + (if HasToolCalls(ms[|ms| - 1]) then 1 else 0)
  }

  /** The tool messages of a node answer its calls one for one, in order. */
  predicate AnswersCalls(msgs: seq<Message>, calls: seq<ToolCall>) {
    && |msgs| == |calls|
    && forall k :: 0 <= k < |msgs| ==> msgs[k].ToolMessage? && msgs[k].toolCallId == calls[k].id
  }

  /** Answering the calls before the last one and then the last one
      answers them all. */
  lemma AnswersCallsLast(msgs: seq<Message>, m: Message, calls: seq<ToolCall>)
    requires |calls| > 0 && AnswersCalls(msgs, calls[..|calls| - 1])
    requires m.ToolMessage? && m.toolCallId == calls[|calls| - 1].id
    ensures AnswersCalls(msgs + [m], calls)
  {
    assert forall k :: 0 <= k < |msgs| ==> calls[..|calls| - 1][k] == calls[k];
  }
}
