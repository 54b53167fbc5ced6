/** Native Anthropic messages and blocks as the agent's client holds them (anthropic/types.go). */
module AnthropicTypes {
  // `input` is raw JSON text; fields a kind does not use are empty.
  datatype Block = Block(
    kind: string,
    text: string,
    thinking: string,
    id: string,
    name: string,
    input: string,
    toolUseID: string,
    content: string)

  /** Either plain content or blocks. */
  datatype AnthropicMessage = AnthropicMessage(role: string, content: string, blocks: seq<Block>)

  const TEXT := "text"
  const THINKING := "thinking"
  const TOOL_USE := "tool_use"
  const TOOL_RESULT := "tool_result"

  function TextBlock(text: string): Block {
    Block(TEXT, text, "", "", "", "", "", "")
  }

  function ToolUse(id: string, name: string, input: string): Block {
    Block(TOOL_USE, "", "", id, name, input, "", "")
  }

  function ToolResult(toolUseID: string, content: string): Block {
    Block(TOOL_RESULT, "", "", "", "", "", toolUseID, content)
  }
}
