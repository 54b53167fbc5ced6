/** OpenAI chat messages and tool calls as the agent holds them (openai/types.go, openai/client.go). */
module ChatTypes {
  datatype ToolCall = ToolCall(index: int, id: string, kind: string, name: string, arguments: string)

  datatype Message = Message(
    role: string,
    content: string,
    reasoning: string,
    toolCalls: seq<ToolCall>,
    toolCallID: string,
    name: string)

  const ROLE_SYSTEM := "system"
  const ROLE_ASSISTANT := "assistant"
  const ROLE_USER := "user"
  const ROLE_TOOL := "tool"

  const EMPTY_MESSAGE := Message("", "", "", [], "", "")

  predicate IsEmpty(m: Message) {
    m.role == "" && m.content == "" && m.reasoning == "" && m.toolCalls == []
  }

  function SystemMessage(content: string): Message {
    Message(ROLE_SYSTEM, content, "", [], "", "")
  }

  function ToolResultMessage(callID: string, name: string, content: string): Message {
    Message(ROLE_TOOL, content, "", [], callID, name)
  }
}
