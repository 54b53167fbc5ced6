# Verification of the miya agents protocol core

A Dafny 4.11 model of the parts of miya agents that carry a conversation between programs, with proofs about it:

- **The protocol codec** (`proxy/codec`). OpenAI Chat, OpenAI Responses and Anthropic Messages are translated through one
  canonical form. Modules `Collector`, `AnthropicStream`, `ResponsesStream`, `ChatStream` and `Streams` are the stream
  machines. `OrderlyRuns` says what decoders emit and which event runs a reader can follow; `AnthropicRoundTrip`,
  `ResponsesRoundTrip` and `ChatRoundTrip` say what is left of such a run when it is printed and read back, for a whole
  response and for a stream translated event by event. Which streams make such runs is told on their frames:
  `Bracketing` and `ChatBracketing` for Chat, `ResponsesOrder` and `AnthropicOrder` exactly for the other two; `StreamOrder`
  proves that translating keeps the order, `StreamUsage` and `CallIDs` tell the usage and the call ids on the frames, and
  `Translations` puts it together. `FrameTexts` says which frames a decoder refuses and that what the others say is what is
  emitted; `StreamTold` tells each block by its events, and `WireFrames` and `ResponsesFrames` say field by field what the
  printed frames carry. `AnthropicRequest`, `AnthropicRequestRoundTrip`, `ChatRequest`, `ResponsesRequest`,
  `Requests` and `RequestLosses` are the request side; `RequestFields` says what requests print, field by field.
- **Server-sent events** (`sse`) under the codec: `Sse`, and `Wire`, which joins it to the stream frames.
- **The agent turn**: `MessageBuilder` and `ResponseAssembler` build streamed messages, and `MessageFragments` and
  `ResponseTold` tell the same messages by their fragments alone. `AgentRun` is the tool loop and `AgentLog` the log of its
  acts, `Transcript` the notice pass; `AnthropicConversion`, `AnthropicBridge`, `BridgeTold` and `AnthropicAgreement` are the
  Anthropic side.
- **The ACP session** (`acp`): `AcpSession` is a transition system of two JSON-RPC peers over two first-in first-out frame
  channels (sections 4 and 5 of the JSON-RPC 2.0 Specification), `AcpCorrelation` its safety proof, `AcpDelivery`
  the proof that no call is forgotten, `AcpEndpoint` the endpoint's methods, each tied to the step it performs.

How the pieces are stated. Each stateful object of the source is a class whose methods are proved against a function of its
old state; the laws are lemmas about those functions. JSON is a tree (`Json`); its text form is three parameters
(`JsonText`: print, parse, format), and lemmas that need it assume that parsing marshalled tool arguments gives them back
(`Json.Survives`). Generated identifiers are a parameter too. A Go map that is ranged over yields its keys in an order the
language leaves open: every frame is delivered with a walk, any enumeration of the keys, and the laws hold for all walks.
The errors of the source are results (`Result`, `Option`, a failure constructor), never preconditions.

Results that differ from what one might expect of the code, each proved:

- Two text blocks that interleave read differently streamed and converted whole
  (`AnthropicAgreement.InterleavedTextDiffers`); the two agree on a run, and on every run with the same events in other
  words, exactly when no fragment belongs to a block before that of an earlier fragment
  (`AnthropicAgreement.OrderDecidesAgreement`).
- A call under index -1 shares its key with reasoning, so its arguments can land in the reasoning block, and text after
  [DONE] reopens a closed stream (`ChatBracketing.StrayCallBreaksBracketing`, `ChatBracketing.LateTextBreaksBracketing`).
  A chat stream is bracketed exactly when no fragment comes under a key that another kind opened and nothing after
  [DONE] says anything (`ChatBracketing.RunsAreBracketed`); only the key -1 can be mixed
  (`ChatBracketing.OnlyReasoningKeyMixes`).
- `TranslateStream` is documented to preserve usage. For an Anthropic reader it prints the input tokens when the stream
  starts, where the Chat and Responses decoders know none: the usage the frames tell survives exactly when it counts
  nothing but output tokens (`Translations.ToAnthropic`). A chunk that counts one input token and then [DONE] shows it
  (`Translations.InputTokensAreLost`).
- A tool call with the arguments null decodes to no arguments, which Anthropic requests print as null and the Anthropic
  decoder refuses. A request keeps its meaning through an Anthropic target exactly when no call has such arguments
  (`AnthropicRequestRoundTrip.AnthropicKeepsMeaning`, told on a Chat body in
  `RequestLosses.ChatKeepsMeaningForAnthropic`); `RequestLosses.NilArgumentsAreLost` is a request that loses its call.
- A Chat request loses without a diagnostic what its messages hold beside strings and text parts: the text of a part that
  is no string, the content of a tool message that is a list, tool calls that are no list or not the assistant's. A
  translated message says what the original says exactly when nothing of this occurs (`RequestLosses.NoChatMessageIsLost`);
  a tool result given as text parts arrives empty (`RequestLosses.ResultPartsAreLost`).
- A tool result's error flag survives a request translated for Anthropic, and is dropped for Chat and Responses: there
  the flags come back exactly when none is set (`ChatRequest.ChatDropsErrors`, `ResponsesRequest.ResponsesDropsErrors`,
  and `RequestLosses.ErrorsAreLost` for a request that shows it).
- Stop reasons outside a small set do not survive a stream round trip; each round trip states exactly which do.
- A request with nothing to print encodes its list as null, which the decoders reject; the request theorems state exactly
  when the encoded request decodes without a diagnostic.
- `sse.Read` is documented to emit each complete event, but it also dispatches a pending event at the end of the source,
  unlike section 9.2.6 of the WHATWG HTML Standard. The model follows the code (`Sse.EndDispatches`); one event more is
  read exactly when some line after the last blank line has the field data (`Sse.PendingDataIsDispatched`).

`dafny verify dfyconfig.toml` checks the whole project.

## Model

| member | source | states |
|---|---|---|
| Collector.Base.ApplyEvent | proxy/codec/stream.go:547-586 | the collector's fields after an event are the collected state after it |
| Collector.SlotsAreLocal | proxy/codec/stream.go:547-586 | what the n-th stop appends is decided by its own block's events alone |
| Collector.InterleavingDoesNotMatter | proxy/codec/stream.go:547-586 | runs with the same events per block, the same order of stops and the same start and done collect to the same state |
| StreamTold.CollectedIsTold | proxy/codec/stream.go:547-586 | of every orderly run the collector holds each open block as its events tell it: what opened it and its fragments in order; its content list is the blocks told, in the order of their stops |
| StreamTold.EnvelopeIsTold | proxy/codec/stream.go:547-592 | of every run the response collected has the id and model of the last start, the reason of the last done, and the last usage told |
| AnthropicStream.StreamDecoder.StartBlock | proxy/codec/stream.go:315-334 | the block a content_block_start opens, or the failure of an unsupported type |
| AnthropicStream.StreamDecoder.DeltaBlock | proxy/codec/stream.go:335-362 | a delta for an index that is not open opens it first |
| AnthropicStream.StreamDecoder.DecodeFrame | proxy/codec/stream.go:298-393 | fields and events after one Anthropic frame, for some walk of the open blocks; a failure changes nothing |
| AnthropicStream.StreamDecoder.FinishStream | proxy/codec/stream.go:395-400 | a stream cut short ends with stop and the usage seen |
| AnthropicStream.StopAll | proxy/codec/stream.go:380-387 | ranging over the open blocks stops each once, in any order |
| ResponsesStream.StreamDecoder.AllocateBlock | proxy/codec/stream.go:255-263 | a key keeps its number; a new key gets the next one |
| ResponsesStream.StreamDecoder.StopBlock | proxy/codec/stream.go:265-272 | only an open block is stopped, and once |
| ResponsesStream.StreamDecoder.CaptureResponse | proxy/codec/stream.go:238-253 | what is kept of a response object |
| ResponsesStream.StreamDecoder.DecodeFrame | proxy/codec/stream.go:157-229 | fields and events after one Responses frame; a failure changes nothing |
| ChatStream.StreamDecoder.DecodeChoice | proxy/codec/stream.go:442-487 | text, reasoning and calls of one choice, in that order, then its finish reason |
| ChatStream.StreamDecoder.DecodeCall | proxy/codec/stream.go:466-483 | a call's index is opened once, its arguments are deltas of that block |
| ChatStream.StreamDecoder.CloseAll | proxy/codec/stream.go:501-514 | the text block and every keyed block are stopped, in any order of the map |
| ChatStream.StreamDecoder.DecodeFrame | proxy/codec/stream.go:413-490 | fields and events after one chunk or [DONE], for some walk of the tool indexes |
| ChatStream.StreamDecoder.FinishStream | proxy/codec/stream.go:492-499 | without [DONE], Finish closes the blocks and ends the stream |
| ChatBracketing.CloseKeyedBrackets | proxy/codec/stream.go:501-514 | walking the keyed blocks stops each of them exactly once |
| ChatBracketing.RunsAreBracketed | proxy/codec/stream.go:402-514 | over every run the decoder accepts, starts come in index order, deltas go to an open block of their kind, every block is stopped once and done comes once, last, if and only if no fragment comes under a key opened by another kind and nothing after [DONE] says anything |
| ChatBracketing.ProperRunsAreBracketed | proxy/codec/stream.go:402-514 | without calls under index -1, and with nothing but [DONE] after [DONE], every run is bracketed |
| ChatBracketing.OnlyReasoningKeyMixes | proxy/codec/stream.go:453-483 | only under the key of reasoning can a fragment meet a block of another kind |
| ChatBracketing.StrayCallBreaksBracketing | proxy/codec/stream.go:453-483 | reasoning followed by arguments under index -1 decodes, and is not bracketed |
| ChatBracketing.LateTextBreaksBracketing | proxy/codec/stream.go:413-453 | text after [DONE] decodes, and is not bracketed |
| Streams.StreamEncoder.EncodeEvent | proxy/codec/stream.go:594-771 | an encoder prints the frames of an event and collects it, for all three protocols; what the frames carry is `ResponsesFrames.PrintedFramesSay`, `WireFrames.AnthropicFramesSay` and `WireFrames.ChatFramesSay` |
| Streams.EncoderCollects | proxy/codec/stream.go:521-592 | whatever is printed, an encoder collects exactly the events it was given |
| Streams.TranslateStream | proxy/codec/stream.go:37-65 | the frames written and the response returned are those of some walk of the decoder's maps; an error is a decoder failure on a prefix, and which streams fail is `FrameTexts.AcceptedExactly` |
| Streams.CollectStream | proxy/codec/stream.go:70-92 | the response returned is that of some walk of the decoder's maps; an error is a decoder failure on a prefix |
| Streams.TranslateAgreesWithCollect | proxy/codec/stream.go:37-92 | for every protocol pair TranslateStream can return exactly the responses CollectStream can return on the same frames |
| Streams.WriteResponseStream | proxy/codec/stream.go:96-127 | the frames are those of start, three events per item, and done, an orderly run, so they say what `ResponsesFrames.PrintedFramesSay` and its two siblings say |
| Streams.NeverFails | proxy/codec/stream.go:70-92 | if every run over all frames decodes, no prefix fails |
| FrameTexts.AcceptedExactly | proxy/codec/stream.go:157-490 | a stream is accepted exactly when no frame is bad, which each frame decides for itself, and fails with what is wrong with the first bad one |
| FrameTexts.FramesAreEmitted | proxy/codec/stream.go:157-490 | for each protocol all text, all reasoning and all arguments the frames of an accepted stream say are emitted, in order, nothing lost, doubled or taken for another kind |
| FrameTexts.ChoiceTellsInOrder | proxy/codec/stream.go:442-487 | a choice tells its text first, then its reasoning, then its calls |
| FrameTexts.KeysTellItems | proxy/codec/stream.go:274-285 | two Responses frames have the same key exactly when they are about the same item: by the id they give, else that of the item they hold, else the place they name |
| FrameTexts.KeysTellParts | proxy/codec/stream.go:287-289 | the parts of one item are told apart by their content index, and under one content index by their items |
| ResponsesFrames.PrintedFramesSay | proxy/codec/stream.go:647-727 | the frames of every orderly run printed as Responses, event by event and field by field: what closes a block carries the id and name it was started with and all its fragments put together, and the end lists the blocks as told, with the status and the usage |
| Decimals.DecimalReads | proxy/codec/stream.go:647-727 | the numeral in a printed item id is a sign and digits that stand for the number, without a leading zero |
| ResponsesFrames.OutputIsListed | proxy/codec/response.go:299-344 | the output of a finished response has one item for each text, call and reasoning content, in order, that says what the content says |
| ResponsesFrames.AllListed | proxy/codec/response.go:299-344 | where every content is text, a call or reasoning, all are listed, each under its own position |
| WireFrames.AnthropicFramesSay | proxy/codec/stream.go:594-639 | the frames of each event printed as Anthropic say what the event says, field by field |
| WireFrames.ChatFramesSay | proxy/codec/stream.go:732-771 | the chunks of each event printed as Chat say what the event says, field by field |
| OrderlyRuns.RunIsPlain | proxy/codec/stream.go:157-514 | whatever the frames say, decoders open blocks empty, their deltas carry one fragment and nothing else, and only the Anthropic one knows a usage at the start |
| OrderlyRuns.BracketedIsOrderly | proxy/codec/stream.go:547-586 | a bracketed run is orderly: blocks open once, grow in their own kind and are closed before done |
| OrderlyRuns.UsageIsTheLast | proxy/codec/stream.go:157-514 | for every source the usage returned by an orderly translation is that of its last event |
| AnthropicRoundTrip.DecodesPrefix | proxy/codec/stream.go:594-639 | cut anywhere before its end, an orderly run printed as Anthropic decodes to the same open blocks, block contents and content list |
| AnthropicRoundTrip.RunCollects | proxy/codec/stream.go:594-639 | a complete run printed as Anthropic never fails and collects to its content, model, mapped stop reason and the tokens the frames carry, however blocks interleave |
| AnthropicRoundTrip.TranslationKeeps | proxy/codec/stream.go:35-66 | for every source, collecting a stream whose run is complete translated to Anthropic gives the content and the model of the response returned; the stop reason exactly for stop, length and tool_use; the usage the frames carry |
| AnthropicRoundTrip.OpenAIUsageSurvives | proxy/codec/stream.go:594-639 | from Chat or Responses the usage returned is the one the frames tell, a reader gets its output tokens alone, and it survives exactly when it counts nothing else |
| AnthropicRoundTrip.AnthropicUsageSurvives | proxy/codec/stream.go:594-639 | from Anthropic the usage returned is the one the frames tell, and it survives exactly when there is some, no tokens were written to the cache, and message_start told a usage unless there are no input tokens |
| AnthropicRoundTrip.RoundTrip | proxy/codec/stream.go:96-127 | printing as Anthropic and collecting gives back the exact content list in order, and never fails; the stop reason survives exactly for stop, length and tool_use; input, cached and output tokens survive and the total becomes input plus output |
| ResponsesRoundTrip.KeysNeverCollide | proxy/codec/stream.go:274-291 | the item keys of different blocks, calls and texts, never collide |
| ResponsesRoundTrip.RoundTrip | proxy/codec/stream.go:96-127 | printing as Responses and collecting gives the content list in order without its reasoning items, and never fails; the stop reason survives exactly for length, error, stop without calls and tool_use with calls |
| ResponsesRoundTrip.DecodesPrefix | proxy/codec/stream.go:647-727 | cut anywhere before its end, an orderly run printed as Responses decodes to the same blocks under other numbers, without reasoning |
| ResponsesRoundTrip.RunCollects | proxy/codec/stream.go:647-727 | a complete run printed as Responses never fails and collects to its content without reasoning, calls without an id under a generated one, however blocks interleave |
| ResponsesRoundTrip.TranslationKeeps | proxy/codec/stream.go:35-66 | for every source, collecting a stream whose run is complete translated to Responses gives the content of the response returned without reasoning exactly when its calls have ids; model and usage survive but for cache writes, the stop reason as in the round trip |
| ChatRoundTrip.DecodesPrefix | proxy/codec/stream.go:732-771 | cut anywhere before its end, an orderly run printed as Chat decodes to the text, the reasoning and the calls told so far |
| ChatRoundTrip.RunCollects | proxy/codec/stream.go:732-771 | a complete run printed as Chat never fails and collects to its text and reasoning in arrival order and to its multiset of calls, for every walk of the tool map |
| ChatRoundTrip.ArrivalReadsLikeBlocks | proxy/codec/stream.go:547-586 | when the blocks of a kind come one at a time, what arrived reads like the closed blocks |
| ChatRoundTrip.TranslationKeeps | proxy/codec/stream.go:35-66 | for every source, collecting a stream whose run is complete translated to Chat gives the calls of the response returned, and its text and reasoning as they arrived, which is how it reads when blocks of a kind come one at a time; input, output and total usage survive, the stop reason as in the round trip |
| Translations.ChatComesOneAtATime | proxy/codec/stream.go:402-514 | in a complete run of the chat decoder neither text nor reasoning blocks interleave |
| AnthropicOrder.OrderIsExact | proxy/codec/stream.go:298-400 | the run of an accepted Anthropic stream is complete exactly when, frame by frame, blocks begin once, pieces are of their block's kind, nothing with an effect follows message_stop, and message_stop comes unless every block was stopped |
| AnthropicOrder.StopsAreOrderly | proxy/codec/stream.go:380-387 | stopping the open blocks in any walk of the map closes each once and leaves none open |
| ResponsesOrder.OrderIsExact | proxy/codec/stream.go:157-236 | the run of an accepted Responses stream is complete exactly when, key by key, the stream begins before its blocks, a key is added once and grows in its kind while open, and everything is closed at one end |
| StreamOrder.OrderIsComplete | proxy/codec/stream.go:157-514 | for each protocol, frames in order make a complete run, whatever the walks; for Responses and Anthropic no others do |
| StreamOrder.PrintedIsInOrder | proxy/codec/stream.go:594-771 | whatever complete run an encoder of any protocol prints, the frames are in order |
| StreamOrder.TranslationsCompose | proxy/codec/stream.go:37-65 | for every protocol pair, a stream in order is translated to a stream in order |
| StreamUsage.ReturnedUsageIsTold | proxy/codec/stream.go:37-65 | the usage returned is the one the frames tell: the last usage object before [DONE] for Chat, the last up to the end for Responses, first input and cached tokens with the last of the rest for Anthropic |
| StreamUsage.TranslatedUsageIsTold | proxy/codec/stream.go:37-65 | the same of every Chat or Responses stream that is translated, in order or not |
| StopReasons.StopReasonsMean | proxy/codec/response.go:447-487 | the stop reasons of each protocol by what they come to; every other one is a plain stop |
| StopReasons.PrintedReasonsMean | proxy/codec/response.go:489-511 | what the stop reasons print as, and what reading that gives back |
| StopReasons.UsageObjectsRead | proxy/codec/response.go:391-431 | each protocol's usage object with all its details reads as the usage it tells |
| StopReasons.OnlyObjectsTell | proxy/codec/response.go:391-431 | only an object tells a usage, and a missing field counts nothing |
| Json.FractionsAreCut | proxy/codec/canonical.go:196-208 | where a number is asked for, a fraction counts what is left of it toward zero, and what is no number counts nothing |
| CallIDs.CollectedCallsHaveIDs | proxy/codec/stream.go:157-514 | for every source, all calls collected have ids exactly when every frame, or for Chat every fragment, that starts a call brings one |
| Translations.ToAnthropic | proxy/codec/stream.go:35-66 | for every stream in order of any protocol, an Anthropic reader gets the content and the model, the stop reason exactly for stop, length and tool_use, and the usage under an exact condition on the frames |
| Translations.ToResponses | proxy/codec/stream.go:35-66 | for every such stream a Responses reader gets everything but reasoning, exactly when every call the frames start has an id, and the usage the frames tell but for cache writes |
| Translations.ToChat | proxy/codec/stream.go:35-66 | for every such stream a chat reader gets the calls, from a chat stream also the text and the reasoning, in whatever order either side closes its blocks, and input, output and total of the usage the frames tell |
| Translations.ThroughAnthropic | proxy/codec/stream.go:37-92 | after a translation for Anthropic a second one, for any protocol, meets and writes a stream in order and returns the content and the model the first returned |
| Translations.InputTokensAreLost | proxy/codec/stream.go:594-639 | a chat stream of one chunk that counts one input token and [DONE]: the response returned has the token, no Anthropic reader gets it |
| ChatRoundTrip.RoundTrip | proxy/codec/stream.go:96-127 | printing as Chat and collecting gives the same concatenated text and reasoning and the same multiset of calls in whatever order the map is walked, and never fails; the stop reason survives exactly for stop, length, tool_use and content_filter; input, output and total usage survive |
| ChatRoundTrip.CloseBlocksStops | proxy/codec/stream.go:501-514 | the stops a walk emits, one per key, after the text block's |
| RequestTypes.BlockingDiagnostics | proxy/codec/canonical.go:141-149 | what blocks is everything but the warnings, in order; nothing blocks exactly when all are warnings |
| RequestTypes.BlockingConcat | proxy/codec/canonical.go:103-120 | the blocking diagnostics of two lists are those of each, and a diagnostic blocks unless it is a warning |
| AnthropicRequest.ReadBlock | proxy/codec/request.go:160-201 | what one content block decodes to, and the diagnostics appended to the shared report |
| AnthropicRequest.ReadResultText | proxy/codec/request.go:205-226 | a result has a text exactly when it is a string or text blocks only, and then it is that string or the texts of the blocks put together, each at its place |
| AnthropicRequest.ResultTextIsSaid | proxy/codec/request.go:205-226 | the same of the decoded value, for every JSON value |
| AnthropicRequest.ResultsAreRefused | proxy/codec/request.go:188-195 | a tool result without a string id or whose content says no text gives one blocking diagnostic and no content |
| Json.ArgumentsAreSpelled | proxy/codec/canonical.go:246-261 | arguments are decoded exactly when the value is the object, or a text that parses to them |
| AnthropicRequest.ReadContent | proxy/codec/request.go:149-203 | a message's contents and appended diagnostics |
| AnthropicRequest.ReadSystem | proxy/codec/request.go:114-147 | the system message, if any text, and appended diagnostics |
| AnthropicRequest.SystemIsSaid | proxy/codec/request.go:114-147 | the system message has the string, or the texts of the text blocks put together; without any text there is none |
| RequestFields.SystemIsPortable | proxy/codec/request.go:114-147 | the system field is accepted exactly when it is missing, a string or text blocks only; a block that asks for a prompt cache left its warning |
| AnthropicRequest.ReadMessages | proxy/codec/request.go:89-109 | the messages and appended diagnostics, bad ones skipped |
| AnthropicRequest.Output.Append | proxy/codec/request.go:593-602 | blocks of the same side grow the last message in place, others start one |
| AnthropicRequest.WriteRequest | proxy/codec/request.go:584-644 | the messages, hoisted system text and diagnostics of the encoded request |
| AnthropicRequestRoundTrip.EncoderNormalizes | proxy/codec/request.go:584-644 | no two adjacent output messages share a role, none is empty, and flattening gives the input's non-system blocks in order |
| AnthropicRequestRoundTrip.DecodeGivesNormalForm | proxy/codec/request.go:70-112 | decoding an encoded request gives its grouped form, whole exactly when every printed call has object arguments and otherwise without those calls; without a diagnostic exactly when, besides, there is a non-system item |
| AnthropicRequestRoundTrip.EncodeIsFixpoint | proxy/codec/request.go:584-644 | decoding and encoding again changes nothing exactly when every printed call has object arguments |
| AnthropicRequestRoundTrip.AnthropicKeepsMeaning | proxy/codec/request.go:584-644 | through an Anthropic target, calls and results come back in order without the calls that have nil arguments, each side keeps its text and the system texts are joined; the meaning is kept exactly when there are no such calls |
| AnthropicRequestRoundTrip.AnthropicKeepsErrors | proxy/codec/request.go:627-629 | through an Anthropic target every result keeps its error flag, whatever the calls |
| ChatRequest.ReadText | proxy/codec/request.go:502-528 | the text contents of a message and appended diagnostics |
| ChatRequest.ReadAssistant | proxy/codec/request.go:467-483 | an assistant message's text and calls, invalid calls skipped with a diagnostic |
| ChatRequest.ReadMessages | proxy/codec/request.go:452-496 | the messages and appended diagnostics, bad ones skipped |
| ChatRequest.DecodedIsSensible | proxy/codec/request.go:437-500 | whatever a Chat client sends, decoded calls sit in assistant messages with ids and names and results in user messages with ids |
| ChatRequest.WriteRequest | proxy/codec/request.go:718-751 | the messages of the encoded request: results first, then one item with text and calls |
| ChatRequest.ChatKeepsMeaning | proxy/codec/request.go:718-751 | through a Chat target, calls and results keep their order and every side its text, system included; no diagnostic exactly when some message prints |
| ChatRequest.ChatDropsErrors | proxy/codec/request.go:718-751 | through a Chat target as many results come back and none is an error, so the flags come back exactly when none is set |
| ResponsesRequest.ReadContent | proxy/codec/request.go:366-396 | the text parts of a message and appended diagnostics |
| ResponsesRequest.ReadItem | proxy/codec/request.go:317-361 | what one input item decodes to, and appended diagnostics |
| ResponsesRequest.ReadInput | proxy/codec/request.go:305-364 | the messages of an input and appended diagnostics |
| ResponsesRequest.WriteRequest | proxy/codec/request.go:663-694 | the input and instructions of the encoded request: tool items at once, text gathered after them |
| ResponsesRequest.ResponsesKeepsMeaning | proxy/codec/request.go:663-694 | through a Responses target, calls and results keep their order, each side its text and the instructions are joined; no diagnostic exactly when there is a non-system item |
| ResponsesRequest.ResponsesDropsErrors | proxy/codec/request.go:663-694 | through a Responses target as many results come back and none is an error, so the flags come back exactly when none is set |
| RequestFields.ChatPrints | proxy/codec/request.go:718-777 | what each message prints for a Chat target, field by field: its results, then its text and calls in one item |
| RequestFields.ResponsesPrints | proxy/codec/request.go:663-716 | what each message prints for a Responses target, field by field: its calls and results, then its texts in one item |
| RequestFields.SystemTextIsKept | proxy/codec/request.go:584-694 | an Anthropic target holds every text of the system messages, a Responses target one text per system message, in order, apart by blank lines |
| RequestFields.TextIsAssembled | proxy/codec/canonical.go:263-271 | the text of a message is its text contents put together |
| Requests.DiagnoseKeys | proxy/codec/request.go:791-813 | a warning for each warned key, a problem for each unknown key, in key order |
| Requests.ReadRequest | proxy/codec/request.go:10-25 | the messages and all diagnostics of a request, per protocol |
| Requests.TranslateRequest | proxy/codec/canonical.go:103-120 | a bad body, the blocking diagnostics, or the encoded request with every diagnostic; if it succeeds from Anthropic or Responses, the canonical messages are accounted for block by block or item by item |
| RequestFields.StraysAreRefused | proxy/codec/canonical.go:103-120 | a translation succeeds exactly when the body is an object, its decoding only warns, and for an Anthropic target the system messages hold nothing but text |
| Requests.TranslationKeepsMeaning | proxy/codec/canonical.go:103-120 | for every protocol pair, decoding what was printed gives the same calls, results and text per side: for an Anthropic target exactly when no call has nil arguments |
| Requests.NoKeyIsLost | proxy/codec/request.go:791-813 | if a translation succeeds, every top-level key is one the protocol may have, by name, and left no diagnostic, or one that is warned about, and left its warning |
| Requests.NoBlockIsLost | proxy/codec/request.go:94-203 | if a translation from Anthropic succeeds, every message and every content block became exactly one canonical message or content that says the same, a result's text being its string or the texts of its blocks put together, in order, except thinking blocks, each of which left a warning, as did each cache request |
| Requests.NoItemIsLost | proxy/codec/request.go:305-396 | if a translation from Responses succeeds, after the instructions, a text became one user message, and every item of a list exactly one canonical message that says the same, in order |
| RequestLosses.NoChatMessageIsLost | proxy/codec/request.go:452-528 | if a translation from Chat succeeds, every message became exactly one canonical message, in order, that says what it says exactly when it has no text part without a string, no tool content that is not one, and no tool calls out of place |
| RequestLosses.ChatKeepsMeaningForAnthropic | proxy/codec/canonical.go:246-261 | a Chat request keeps its meaning through an Anthropic target exactly when no call of an assistant message has arguments that parse to null |
| RequestLosses.NilArgumentsAreLost | proxy/codec/canonical.go:246-261 | a Chat call with the arguments null is translated for Anthropic without a diagnostic and the result does not decode to it |
| RequestLosses.ResultPartsAreLost | proxy/codec/request.go:484-491 | a tool message whose content is a list of text parts is translated without a diagnostic to an empty result |
| RequestLosses.ErrorsAreLost | proxy/codec/request.go:627-629 | an Anthropic result with is_error set comes back from a Chat or a Responses target with it unset |
| Sse.LineReader.Flush | sse/sse.go:76-88 | the dispatch closure: an event without data is dropped, one with data is emitted and reset |
| Sse.LineReader.Line | sse/sse.go:96-117 | what one line does to the event and data |
| Sse.ReadEvents | sse/sse.go:72-126 | the events emitted and how reading ended, for any source and any failing consumer |
| Sse.EndDispatches | sse/sse.go:119-124 | reading any text equals reading it with two more line feeds |
| Sse.PendingDataIsDispatched | sse/sse.go:119-124 | beyond what blank lines dispatched at most one event is read, and one exactly when some line after the last blank line has the field data and every emit before succeeded |
| Sse.UnfinishedEventIsRead | sse/sse.go:119-124 | for every data, an event whose blank line is missing is read all the same |
| Sse.EventIsRead | sse/sse.go:72-126 | an event with every field: type, id and retry are those of its lines, an id with a null character and comments are passed over, and the data lines come out joined by line feeds |
| Sse.EventWithoutDataIsForgotten | sse/sse.go:76-80 | an event without data is forgotten at its blank line, with its type, id and retry |
| Sse.ReadingEnds | sse/sse.go:72-126 | reading stops at the first event whose emit fails, and says so; else it says whether the source broke or ended |
| Sse.ColonsMean | sse/sse.go:103-104 | a field ends at the first colon, one space after it is passed over, and without a colon it has no value |
| Sse.OneReturnIsTrimmed | sse/sse.go:96-97 | a line loses one carriage return at its end, and no more |
| Sse.LineEndingsDoNotMatter | sse/sse.go:94-97 | turning LF into CRLF in text without carriage returns changes nothing |
| Sse.ReaderUndoesWriter | proxy/codec/stream.go:790-816 | reading written frames gives exactly the list, for types and data without line feed or trailing carriage return |
| Wire.FramesSurviveTheWire | proxy/codec/stream.go:790-816 | stream frames printed as text and read as events are the same frames in order |
| Wire.DoneIsLiteral | proxy/codec/stream.go:766-771 | the mark that ends a Chat stream is the text [DONE], and nothing else is |
| MessageBuilder.Builder.AddFragment | openai/stream.go:33-66 | through shared pointers, a fragment extends the call of its id, else of its index, else the last one, else starts one |
| MessageBuilder.Builder.UpdateWith | openai/stream.go:22-68 | the aliased structure after a delta is the pure fold; every pointer in both maps is in the list |
| MessageBuilder.Builder.Build | openai/stream.go:71-79 | the built message is that of the pure fold |
| MessageBuilder.BuiltIDsAreDistinct | openai/stream.go:33-66 | ids of built calls are distinct and only the first can be empty, whatever deltas arrived |
| MessageBuilder.FragmentsLandInOrder | openai/stream.go:33-66 | each name and argument fragment lands in exactly one call, in arrival order |
| MessageBuilder.FragmentLengthIsConserved | openai/stream.go:33-66 | the total length of names and arguments is conserved |
| MessageBuilder.SplitFragment | openai/stream.go:33-66 | cutting a fragment into a head and an id-less tail builds the same calls, from any state |
| MessageBuilder.SplitUpdate | openai/stream.go:22-68 | cutting one delta in two builds the same message, from any state |
| MessageFragments.FragmentsTellCalls | openai/stream.go:33-66 | the calls built are those the fragments start, in order: a fragment belongs to the first with its id, without an id to the call of the latest with its index, else to the latest start; each call has the index and id it starts with, the last kind named and its own fragments put together |
| MessageFragments.MessageIsTold | openai/stream.go:22-79 | the message built is the one its deltas tell: the assistant's, their texts put together, and the calls of their fragments |
| ResponseAssembler.Assembler.AddOne | openai/stream.go:101-131 | first id and model, last usage, one builder per choice index |
| ResponseAssembler.Assembler.Build | openai/stream.go:134-158 | one choice per builder, in any order of the map |
| ResponseAssembler.ChoicesDoNotMix | openai/stream.go:101-131 | the message of a choice is that of a lone builder fed only that choice's deltas |
| ResponseTold.EnvelopeIsTold | openai/stream.go:101-131 | the response has the first id and the first model any chunk names, and the last usage any has |
| ResponseTold.ChoiceIsTold | openai/stream.go:101-158 | a choice is built exactly for an index some delta comes under, with the message the deltas of that index tell and the last finish reason given for it |
| AgentRun.Session.RunOneTool | agent/agent.go:127-136 | the result is what the tool returned, or for attach_file the file's summary, the sink's error or the refusal, and the acts are the run of the tool and the file announced |
| AgentRun.Session.Call | agent/agent.go:111-152 | one tool call: missing id, start event, run or unknown tool, done event, tool message |
| AgentRun.Session.AppendNotice | agent/context_notice.go:14-38 | the notice pass on the session's slice |
| AgentRun.Session.Stream | agent/agent.go:72-91 | what a stream does to the builder and the sink, stopping at the first error |
| AgentRun.Session.OneRound | agent/agent.go:60-153 | one model call and what follows it |
| AgentRun.Session.Run | agent/agent.go:56-154 | the session, the requests made and every act after any rounds; what these tell is `AgentLog.RequestsFollow`, `AgentLog.RoundEnds` and `AgentLog.CallsAreLogged` |
| AgentRun.RunIsSound | agent/agent.go:56-154 | from a well-paired session, every request is well paired and extends the ones before; a run without error leaves a well-paired transcript with at most one notice, last, that keeps in order every message of the session and of every request |
| AgentRun.RunEndsWithAnswer | agent/agent.go:56-154 | a run that finishes leaves the notice pass over its last request and the answer built for it, which is not empty and calls no tool |
| AgentRun.MissingIDRunsNoTool | agent/agent.go:95-128 | if any call built for a round lacks an id the run fails and that round starts, runs and reports no tool |
| AgentRun.SinkHearsTheMessage | agent/agent.go:80-91 | a completed stream tells the sink exactly the text and reasoning of the built message |
| AgentRun.CallsRunOnceInOrder | agent/agent.go:111-152 | each call is started once in order, exactly the known tools run, and the appended messages are the reported results; that these are what the tools returned is `AgentLog.CallsAreLogged` |
| AgentLog.CallIsLogged | agent/agent.go:111-152 | a call fails without an id before any act, by a sink error at its start or its report, or is logged: started, run if the tool is known, reported and answered with what the tool returned, the file's summary, or that the tool is unknown |
| AgentLog.CallsAreLogged | agent/agent.go:111-152 | when a round's calls all get through, the acts are their logs one after the other and the messages appended are their replies, in order |
| AgentLog.StreamIsHeard | agent/agent.go:72-91 | a stream that runs to its end told the sink the reasoning and the text of each of its messages, in order |
| AgentLog.StreamEnds | agent/agent.go:72-91 | a stream ends in order, at its first error chunk, or where the sink refused what it was told |
| AgentLog.ChunksMean | openai/client.go:128-137 | the message of a chunk is its first choice's delta if that says anything, else that choice's message |
| AgentLog.RoundEnds | agent/agent.go:60-153 | how a round ends: refused, as its stream ended, cancelled, without a response, concluded, or with the calls of the answer under way |
| AgentLog.RequestsFollow | agent/agent.go:56-154 | over every run each request but the first is the one before it, the answer streamed to it and the replies to its calls, and the acts tell the same |
| Transcript.RemoveNotices | agent/context_notice.go:54-63 | compaction in the slice's own array keeps exactly the other messages, in order |
| Transcript.WellPairedMeans | agent/agent.go:111-152 | in a well-paired transcript each call is answered by the message at its place after the assistant message |
| Transcript.NoticePassIsTidy | agent/context_notice.go:14-38 | at most one notice, last, every other message in order, pairing kept |
| Transcript.NoticePassWarns | agent/context_notice.go:14-38 | a notice is appended exactly when there is text and its estimated tokens reach the warned share of the window, and it names the nearest percentage and the session |
| Transcript.TokensMean | agent/context_notice.go:65-77 | four characters are a token, and every text has one more |
| Transcript.CharsOneMore | agent/context_notice.go:65-77 | the characters counted are those of every message's fields and of its calls' fields |
| Transcript.NoticesBegin | agent/context_notice.go:54-63 | a message is a notice exactly when it is a system message that begins, after spaces, with the prefix |
| Transcript.NoticesAreRemoved | agent/context_notice.go:54-63 | of two lists the notices are removed from each, and of a message alone nothing but a notice |
| AnthropicConversion.AreToolResults | anthropic/openai.go:80-90 | whether a message consists of tool results only |
| AnthropicConversion.ConvertRequest | anthropic/openai.go:35-76 | the request says, piece by piece, what the transcript says: texts, calls and results in order with their fields, results that follow each other in one message; the system texts stand in order in the system field, apart by blank lines |
| AnthropicConversion.PairingSurvives | anthropic/openai.go:35-90 | from any well-paired transcript, each message with tool_use blocks is followed at once by one user message of exactly its results |
| AnthropicConversion.ConversionKeepsBlocks | anthropic/openai.go:35-76 | tool calls, tool results and assistant texts all come out in order, field by field as the transcript has them |
| AnthropicConversion.KthUseIsKthCall | anthropic/openai.go:47-58 | the k-th tool_use block has the id and the name of the k-th call of the transcript, and its arguments, or an empty object if they are empty |
| AnthropicConversion.RequestIsWanted | anthropic/openai.go:35-90 | the pieces of the request are those the transcript asks for, each assistant message with something to say is one message, and results that follow each other are one message |
| AnthropicConversion.ConversionKeepsTexts | anthropic/openai.go:35-76 | user texts come out in order, system texts in order in the system field |
| AnthropicConversion.EveryRequestConvertsPaired | agent/agent.go:56-154 | every request of every run from a well-paired session converts to a paired Anthropic request |
| AnthropicBridge.Translate | anthropic/openai.go:254-336 | the chunks sent before the channel closes |
| AnthropicBridge.ConvertResponse | anthropic/openai.go:124-149 | the message a whole answer converts to |
| BridgeTold.ChunksAreTold | anthropic/openai.go:254-336 | the chunks are the events sent on before the first error or stop, one for one and in order, field by field, each in the name of the message announced before it; the finish counts the tokens |
| BridgeTold.WholeIsTold | anthropic/openai.go:124-149 | a whole answer says its texts put together, its thoughts put together, and one numbered call per tool_use block, in order |
| AnthropicAgreement.StreamedIsWhole | anthropic/openai.go:124-336 | for every well-formed run, interleaved or not, streaming and converting whole give the same ordered calls exactly when no tool input is empty, and the same text and reasoning exactly as far as arrival order reads like block order |
| AnthropicAgreement.NothingAfterTheStop | anthropic/openai.go:330-331 | a message_stop adds nothing and whatever follows it is not read |
| AnthropicAgreement.ArrivalIsBlockOrder | anthropic/openai.go:290-313 | arrival order reads like block order for every choice of texts exactly when no fragment belongs to an earlier block than one before it |
| AnthropicAgreement.OrderDecidesAgreement | anthropic/openai.go:290-313 | streamed and whole agree on a well-formed run and on every run with the same events in other words exactly when its fragments come in block order |
| AnthropicAgreement.InterleavedTextDiffers | anthropic/openai.go:290-313 | two interleaved text blocks read differently streamed and whole |
| AcpEndpoint.Endpoint.BeginCall | acp/client.go:79-92 | a call takes a fresh id and registers a one-slot channel |
| AcpEndpoint.Endpoint.WriteRequest | acp/client.go:94-99 | the request frame is written, or the call returns |
| AcpEndpoint.Endpoint.HandleOne | acp/client.go:140-178 | what a frame does: a handler, a channel looked up, or nothing |
| AcpEndpoint.Endpoint.SendToChannel | acp/client.go:172-177 | a reply enters the channel looked up |
| AcpEndpoint.Endpoint.FinishHandler | acp/client.go:180-264 | any running handler answers its own request |
| AcpEndpoint.Endpoint.Select | acp/client.go:101-114 | a waiting call returns the reply its channel holds, and gives up exactly when it may and does, or its channel tells it that the connection closed; when both are ready either can happen |
| AcpEndpoint.Endpoint.RemovePending | acp/client.go:311-315 | the deferred removal of a call's channel |
| AcpEndpoint.Endpoint.ClosePendingOne | acp/client.go:317-327 | closing tells one pending channel |
| AcpEndpoint.Endpoint.MarkClosed | acp/client.go:317-319 | closing begins by marking the connection closed |
| AcpEndpoint.Endpoint.SendNotification | acp/client.go:329-341 | a notification enters the outbox |
| AcpEndpoint.Perform | acp/client.go:79-342 | an endpoint's method does to it and to both outboxes what the step of the session says |
| AcpEndpoint.Drive | acp/client.go:79-342 | two endpoints driven by any script form a run of the session, so replies reach their calls, no call is forgotten, and the readers never block |
| AcpCorrelation.NextKeepsInvariant | acp/server.go:68-115 | every step of either side keeps the token invariant of both halves |
| AcpCorrelation.RepliesReachTheirCalls | acp/client.go:79-178 | in every reachable state a call that returned a result returned the one computed from its own request, no channel holds more than one reply, and the readers never block on delivery before closing; that calls do return what they are sent is `AcpDelivery` |
| AcpCorrelation.OutcomesAreFinal | acp/server.go:361-401 | each reply completes at most one call, for good, over every run |
| AcpDelivery.NoCallIsForgotten | acp/client.go:79-178 | in every reachable state a call that has not returned holds an item in its channel, or is pending and, once sent, its request, its handler or its reply is on the way, or its reply was lost to a write error |
| AcpDelivery.CallsReturnForAReason | acp/client.go:101-114 | over every step of a run a waiting call that returns a reply took the one its channel held, and one that gives up was told so or left; on the client only once the connection is closed |
| AcpDelivery.OpenClientsGiveUpUnsent | acp/client.go:94-114 | while the connection is open, a client's call that returned without a reply never waited: its request could not be written |
| AcpDelivery.RequestsAreAnswered | acp/client.go:94-99 | a registered call is sent, and the side that reads its request runs it and writes its answer |
| AcpDelivery.RepliesAreReturned | acp/client.go:101-178 | a waiting call whose reply is read, delivered and taken returns that reply |

## Left out

- Requests.ReadRequest: reads messages, system text and top-level keys only; model name, limits, sampling options, stop lists, tools and tool choice are decoded beside them. Their diagnostics can only block more translations.
- Requests.DiagnoseKeys: takes the request's keys in their sorted order as a list; sorting them is not modelled.
- Requests.NoBlockIsLost: says nothing of how many system blocks were joined into the one system message.
- AnthropicRoundTrip.TranslationKeeps: asks, as its two siblings do, that the decoder's run is complete; what a reader makes of a run that grows a block never opened, stops one twice or ends with one open is not stated. `Translations` asks it of the frames.
- Translations.ToChat: says nothing of joined text and reasoning from an Anthropic or Responses stream, whose text blocks may overlap; `ChatRoundTrip.TranslationKeeps` says they read as they arrived.
- Requests.TranslateRequest: leaves out the fields `Requests.ReadRequest` leaves out, and their diagnostics.
- ResponseAssembler.Assembler.AddOne: keeps its builders as values; the pointer structure of one builder is in `MessageBuilder.Builder`. The creation time and the system fingerprint are not kept.
- ResponseAssembler.Assembler.Build: gives the choices; id, model, usage and creation time are fields beside them.
- AgentRun.Session.Run: takes the rounds the model answers as a finite list; a run that goes on beyond it is still running. An agent without a stream function is not modelled. Tool results, attachments and sink errors are arbitrary.
- AgentRun.Session.AppendNotice: compacts a fresh copy, so what it does to the array behind earlier requests is not seen (`Transcript.RemoveNotices` compacts in place); counts characters where the source counts bytes, and uses reals for the context ratio, so floating-point rounding is not captured.
- AcpCorrelation.RepliesReachTheirCalls: safety only; progress when the connection closes and the exactness of session/cancel are not claimed. Frames that do not parse, and ids that are not numbers, are not modelled.
- Sse.ReadEvents: does not model cancellation of the context between lines.
- Diagnostic paths are lists of steps, not rendered text, and the messages leave out quoted type names.
- Failing writes to the HTTP client, headers and flushing: writing is a list of frames.
- The non-streaming response decoders and encoders, except where a stream machine prints through them.
- Anthropic's thinking signatures, usage beyond tokens, timestamps and generated ids beyond their prefix.
- `openai/responses_api_stream.go` and `OpenAIStreamToAnthropicStream`: older bridges.
- HTTP clients and handlers, OAuth, configuration, logging, skills, MCP, file and web tools, the user interface: I/O and plumbing.
