/** Stop-reason and usage mappers shared by the stream machines (proxy/codec/response.go). */
module StopReasons {
  import opened Wrappers
  import opened Json
  import opened Canonical

  function AnthropicStopReason(value: string): string {
    match value
    case "max_tokens" => "length"
    case "model_context_window_exceeded" => "length"
    case "tool_use" => "tool_use"
    case _ => "stop"
  }

  function EncodeAnthropicStopReason(value: string): string {
    match value
    case "length" => "max_tokens"
    case "tool_use" => "tool_use"
    case _ => "end_turn"
  }

  // Both arms of an incomplete response give "length", whatever its details say.
  function ResponsesStopReason(status: string): string {
    match status
    case "failed" => "error"
    case "cancelled" => "cancelled"
    case "incomplete" => "length"
    case _ => "stop"
  }

  function ResponsesStatus(stopReason: string): string {
    match stopReason
    case "length" => "incomplete"
    case "error" => "failed"
    case _ => "completed"
  }

  function ChatStopReason(value: string): string {
    match value
    case "length" => "length"
    case "tool_calls" => "tool_use"
    case "function_call" => "tool_use"
    case "content_filter" => "content_filter"
    case _ => "stop"
  }

  function EncodeChatStopReason(value: string): string {
    match value
    case "length" => "length"
    case "tool_use" => "tool_calls"
    case "content_filter" => "content_filter"
    case _ => "stop"
  }

  function DefaultStopReason(value: string): string {
    if value == "" then "stop" else value
  }

  function DecodeAnthropicUsage(value: Json): Option<Usage> {
    if !value.Obj? then None
    else
      var input, output := IntOr(Get(value, "input_tokens")), IntOr(Get(value, "output_tokens"));
      Some(Usage(input, output, input + output, IntOr(Get(value, "cache_read_input_tokens")),
                 IntOr(Get(value, "cache_creation_input_tokens")), 0))
  }

  function DecodeResponsesUsage(value: Json): Option<Usage> {
    if !value.Obj? then None
    else
      Some(Usage(IntOr(Get(value, "input_tokens")), IntOr(Get(value, "output_tokens")),
                 IntOr(Get(value, "total_tokens")),
                 IntOr(Get(Get(value, "input_tokens_details"), "cached_tokens")), 0,
                 IntOr(Get(Get(value, "output_tokens_details"), "reasoning_tokens"))))
  }

  function DecodeChatUsage(value: Json): Option<Usage> {
    if !value.Obj? then None
    else
      Some(Usage(IntOr(Get(value, "prompt_tokens")), IntOr(Get(value, "completion_tokens")),
                 IntOr(Get(value, "total_tokens")),
                 IntOr(Get(Get(value, "prompt_tokens_details"), "cached_tokens")), 0,
                 IntOr(Get(Get(value, "completion_tokens_details"), "reasoning_tokens"))))
  }

  // ---- What the mappers mean --------------------------------------------------------------

  /** The stop reasons of each protocol, by what they come to; every other one is a plain stop. */
  lemma {:induction false} StopReasonsMean(value: string)
    ensures AnthropicStopReason(value) == "length" <==> value in {"max_tokens", "model_context_window_exceeded"}
    ensures AnthropicStopReason(value) == "tool_use" <==> value == "tool_use"
    ensures ChatStopReason(value) == "length" <==> value == "length"
    ensures ChatStopReason(value) == "tool_use" <==> value in {"tool_calls", "function_call"}
    ensures ChatStopReason(value) == "content_filter" <==> value == "content_filter"
    ensures ResponsesStopReason(value) == "error" <==> value == "failed"
    ensures ResponsesStopReason(value) == "cancelled" <==> value == "cancelled"
    ensures ResponsesStopReason(value) == "length" <==> value == "incomplete"
    ensures AnthropicStopReason(value) in {"stop", "length", "tool_use"}
    ensures ChatStopReason(value) in {"stop", "length", "tool_use", "content_filter"}
    ensures ResponsesStopReason(value) in {"stop", "length", "error", "cancelled"}
  {
  }

  /** What the mappers print, and that reading it gives back what the protocol can say. */
  lemma {:induction false} PrintedReasonsMean(value: string)
    ensures EncodeAnthropicStopReason(value) ==
            if value == "length" then "max_tokens" else if value == "tool_use" then "tool_use" else "end_turn"
    ensures EncodeChatStopReason(value) ==
            if value == "tool_use" then "tool_calls" else if value in {"length", "content_filter"} then value
            else "stop"
    ensures ResponsesStatus(value) ==
            if value == "length" then "incomplete" else if value == "error" then "failed" else "completed"
    ensures AnthropicStopReason(EncodeAnthropicStopReason(value)) ==
            if value in {"length", "tool_use"} then value else "stop"
    ensures ChatStopReason(EncodeChatStopReason(value)) ==
            if value in {"length", "tool_use", "content_filter"} then value else "stop"
  {
  }

  // A usage with all the details each protocol has for it.
  function ChatUsageObject(u: Usage): Json {
    Obj(map["prompt_tokens" := Num(u.input), "completion_tokens" := Num(u.output), "total_tokens" := Num(u.total),
            "prompt_tokens_details" := Obj(map["cached_tokens" := Num(u.cached)]),
            "completion_tokens_details" := Obj(map["reasoning_tokens" := Num(u.reasoning)])])
  }

  function ResponsesUsageObject(u: Usage): Json {
    Obj(map["input_tokens" := Num(u.input), "output_tokens" := Num(u.output), "total_tokens" := Num(u.total),
            "input_tokens_details" := Obj(map["cached_tokens" := Num(u.cached)]),
            "output_tokens_details" := Obj(map["reasoning_tokens" := Num(u.reasoning)])])
  }

  function AnthropicUsageObject(u: Usage): Json {
    Obj(map["input_tokens" := Num(u.input), "output_tokens" := Num(u.output),
            "cache_read_input_tokens" := Num(u.cached), "cache_creation_input_tokens" := Num(u.cacheWrite)])
  }

  /** Each protocol's usage object reads as the usage it tells; what it has no field for is nothing, or the sum. */
  lemma {:induction false} UsageObjectsRead(u: Usage)
    ensures DecodeChatUsage(ChatUsageObject(u)) == Some(u.(cacheWrite := 0))
    ensures DecodeResponsesUsage(ResponsesUsageObject(u)) == Some(u.(cacheWrite := 0))
    ensures DecodeAnthropicUsage(AnthropicUsageObject(u)) == Some(u.(total := u.input + u.output, reasoning := 0))
  {
  }

  /** Only an object tells a usage, and a field that is missing counts nothing. */
  lemma {:induction false} OnlyObjectsTell(value: Json)
    ensures DecodeChatUsage(value).Some? <==> value.Obj?
    ensures DecodeResponsesUsage(value).Some? <==> value.Obj?
    ensures DecodeAnthropicUsage(value).Some? <==> value.Obj?
    ensures var empty := Obj(map[]); DecodeChatUsage(empty) == DecodeResponsesUsage(empty)
                                     == DecodeAnthropicUsage(empty) == Some(Usage(0, 0, 0, 0, 0, 0))
  {
  }
}
