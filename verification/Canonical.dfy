/** The canonical form every wire protocol is translated through (proxy/codec/canonical.go). */
module Canonical {
  import opened Wrappers
  import opened Json

  datatype Protocol = OpenAIChat | OpenAIResponses | Anthropic

  // Untyped is Go's zero value of the type tag.
  datatype ContentType = Untyped | TextType | ReasoningType | ToolCallType | ToolResultType

  datatype Content = Content(
    kind: ContentType,
    text: string,
    id: string,
    name: string,
    arguments: Arguments,
    toolCallID: string,
    isError: bool)

  function TextContent(text: string): Content {
    Content(TextType, text, "", "", Null, "", false)
  }

  function ReasoningContent(text: string): Content {
    Content(ReasoningType, text, "", "", Null, "", false)
  }

  function ToolCallContent(id: string, name: string, arguments: Arguments): Content {
    Content(ToolCallType, "", id, name, arguments, "", false)
  }

  function ToolResultContent(callID: string, text: string, isError: bool): Content {
    Content(ToolResultType, text, "", "", Null, callID, isError)
  }

  datatype Usage = Usage(
    input: int,
    output: int,
    total: int,
    cached: int,
    cacheWrite: int,
    reasoning: int)

  datatype Response = Response(
    id: string,
    model: string,
    content: seq<Content>,
    stopReason: string,
    usage: Option<Usage>)

  const EMPTY_RESPONSE := Response("", "", [], "", None)
}
