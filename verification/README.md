# Codex → OpenAI Chat Completions translation, modelled in Dafny

This project models two parts of an API proxy that fronts the Codex Responses API.

The first part is the response translator. It turns Codex events into OpenAI Chat-Completions JSON:

- **Streaming:** one call per `data:` line. Each call takes a state object that persists across calls, and emits zero or more `chat.completion.chunk` values.
- **Non-streaming:** one call per final `response.completed` object. It emits one `chat.completion`.

The translator also:

- reads a *reasoning-compatibility mode* (`legacy`, `o3`, `think-tags`, `current`) from an annotation on the original request;
- restores the tool names that were shortened on the way out;
- copies usage counters and sets the finish reason.

The second part is the request-side settings applier. It:

- patches the outgoing payload (reasoning effort and summary, a compatibility rewrite of system roles, a default web-search tool);
- annotates the stored original request with the mode the translator will read back;
- splits a reasoning-effort suffix off a model name.

Modules:

- `TextUtil` (text.dfy): Go's `strings.TrimSpace`, `ToLower`, `EqualFold`, `HasSuffix` and `LastIndex` on `seq<char>`.
- `JsonTree` (json.dfy): JSON values as a tree, with the gjson lookup and the sjson set and delete.
- `Shapes` (shapes.dfy): output items, usage, tool calls and messages.
- `ReasoningCompat` (compat.dfy): mode normalization and resolution, and the four-way message formatting.
- `ToolNames` (toolnames.dfy): the reverse tool-name map.
- `StreamTranslator` (stream.dfy): the streaming state as a class (`ConvertParams`). Its step method is proved equal to a specification function, `StepSpec`.
- `StreamProperties` (stream_props.dfy): properties of runs of many events.
- `NonStreamTranslator` (nonstream.dfy): the walk over `output` as loops, each proved equal to a reference definition, and properties of the final message.
- `CodexSettings` (settings.dfy): the settings applier.

## Model

| member | source | states |
|---|---|---|
| ReasoningCompat.Normalize | internal/translator/codex/openai/chat-completions/codex_openai_response.go:22-30 | the mode's name is the trimmed, lower-cased input, or the input names no mode and the mode is think-tags |
| ReasoningCompat.NormalizeName | internal/translator/codex/openai/chat-completions/codex_openai_response.go:22-30 | every mode's canonical name normalizes back to that mode |
| ReasoningCompat.NormalizeIdempotent | internal/translator/codex/openai/chat-completions/codex_openai_response.go:22-30 | normalizing the name of a normalized mode changes nothing |
| ReasoningCompat.NormalizeIgnoresCase | internal/translator/codex/openai/chat-completions/codex_openai_response.go:23 | inputs equal up to ASCII case select the same mode |
| ReasoningCompat.NormalizeIgnoresPadding | internal/translator/codex/openai/chat-completions/codex_openai_response.go:23 | white space around the input does not change the mode |
| ReasoningCompat.NormalizeBlank | internal/translator/codex/openai/chat-completions/codex_openai_response.go:27-28 | a blank input selects think-tags |
| ReasoningCompat.Resolve | internal/translator/codex/openai/chat-completions/codex_openai_response.go:32-40 | `__codex_settings.reasoning_compat` is used when present, else `codex_settings.reasoning_compat`, else think-tags |
| ReasoningCompat.ResolvePrefersAnnotation | internal/translator/codex/openai/chat-completions/codex_openai_response.go:33-38 | when the annotation carries a mode, any value under the older key is ignored |
| ReasoningCompat.ResolveUnparsed | internal/translator/codex/openai/chat-completions/codex_openai_response.go:32-40 | an empty request, or one from which no setting can be read, resolves to think-tags |
| ReasoningCompat.JoinReasoningText | internal/translator/codex/openai/chat-completions/codex_openai_response.go:42-52 | the result is trimmed; it is empty iff both sides are blank; otherwise it is the one non-blank side, or both sides trimmed with a blank line between them |
| ReasoningCompat.ApplyToMessage | internal/translator/codex/openai/chat-completions/codex_openai_response.go:54-85 | per mode: o3 sets structured reasoning to the join; legacy and current set summary and full separately when non-blank; think-tags prepends `<think>join</think>` to the content; role and tool calls are never changed; nothing to add leaves the message unchanged |
| ReasoningCompat.ThinkBlockIsSeparable | internal/translator/codex/openai/chat-completions/codex_openai_response.go:70-82 | think-tags content is exactly the open tag, the join, the close tag, then the original content |
| ToolNames.BuildReverseMap | internal/translator/codex/openai/chat-completions/codex_openai_response.go:475-502 | the keys are exactly the shortened names of the declared function tools; each key leads back to an original that shortens to it; for an injective shortener the map is the inverse |
| ToolNames.CollectFunctionToolNames | internal/translator/codex/openai/chat-completions/codex_openai_response.go:478-492 | the collected names are the `function.name` of every entry of type "function", in declaration order |
| ToolNames.InvertNames | internal/translator/codex/openai/chat-completions/codex_openai_response.go:493-498 | every shortened name becomes a key, and each key leads back to an original that shortens to it |
| ToolNames.InverseUnique | internal/translator/codex/openai/chat-completions/codex_openai_response.go:493-498 | for an injective shortener the inverted map is the only map with those two properties |
| ToolNames.RestoreInverts | internal/translator/codex/openai/chat-completions/codex_openai_response.go:494-499 | looking up a shortened name gives back the declared name |
| ToolNames.RestoreKeepsUnknown | internal/translator/codex/openai/chat-completions/codex_openai_response.go:276-283 | a name the shortener never produced passes through unchanged |
| StreamTranslator.Template | internal/translator/codex/openai/chat-completions/codex_openai_response.go:129-171 | a chunk header has the response id, created time, the event's own `model` (else the placeholder "model") and the event's usage, with an empty delta and no finish reason |
| StreamTranslator.ReasoningStep | internal/translator/codex/openai/chat-completions/codex_openai_response.go:211-239 | a reasoning delta emits one to three chunks; legacy and current emit exactly one and keep the state; the function-call index, mode, closed flag and summary flag are kept |
| StreamTranslator.CompletedStep | internal/translator/codex/openai/chat-completions/codex_openai_response.go:247-259 | the last chunk carries finish reason tool_calls when a function call was seen, else stop; at most one chunk (the close tag) comes before it |
| StreamTranslator.EventStep | internal/translator/codex/openai/chat-completions/codex_openai_response.go:200-293 | at most three chunks per event, all with the call's header; the mode is kept |
| StreamTranslator.StepSpec | internal/translator/codex/openai/chat-completions/codex_openai_response.go:114-294 | a line without `data:` changes nothing; response.created stores id, time and model and emits nothing; any other event resolves the mode once; every chunk carries the header of the call |
| StreamTranslator.ConvertParams.constructor | internal/translator/codex/openai/chat-completions/codex_openai_response.go:115-122 | the new state has the request's model, no id and function-call index -1 |
| StreamTranslator.ConvertParams.EmitReasoning | internal/translator/codex/openai/chat-completions/codex_openai_response.go:211-239 | the new fields and the chunks are those of `ReasoningStep` |
| StreamTranslator.ConvertParams.Complete | internal/translator/codex/openai/chat-completions/codex_openai_response.go:247-259 | the new fields and the chunks are those of `CompletedStep` |
| StreamTranslator.ConvertParams.ItemDone | internal/translator/codex/openai/chat-completions/codex_openai_response.go:260-290 | the new fields and the chunks are those of the output_item.done case of `EventStep` |
| StreamTranslator.ConvertParams.HandleEvent | internal/translator/codex/openai/chat-completions/codex_openai_response.go:200-293 | the new fields and the chunks are those of `EventStep` |
| StreamTranslator.ConvertParams.HandleData | internal/translator/codex/openai/chat-completions/codex_openai_response.go:142-293 | for any event other than response.created, the new fields and the chunks are those of `StepSpec`: the mode is fixed on first use and the chunk header is built from the state and the event |
| StreamTranslator.ConvertParams.Step | internal/translator/codex/openai/chat-completions/codex_openai_response.go:123-294 | the new fields and the chunks are those of `StepSpec` with the request's resolved mode and reverse map |
| StreamTranslator.Convert | internal/translator/codex/openai/chat-completions/codex_openai_response.go:114-294 | on the first call of a request a fresh state is created; the result is `StepSpec` from that state or from the given one |
| StreamProperties.StepKeepsMode | internal/translator/codex/openai/chat-completions/codex_openai_response.go:142-146 | once resolved, the mode stays the one the original request carries |
| StreamProperties.ThinkTagsBalanced | internal/translator/codex/openai/chat-completions/codex_openai_response.go:200-259 | over a whole response whose upstream text deltas are never exactly `<think>` or `</think>` (tags are counted by chunk content), the translator emits `<think>` and `</think>` equally often, at most once each; only in think-tags mode; every close comes after the open |
| StreamProperties.FunctionCallIndexing | internal/translator/codex/openai/chat-completions/codex_openai_response.go:260-290 | the n-th function_call item is emitted as a tool-call delta at index start+1+n with its restored name; the index ends at start plus the number of calls; nothing else emits tool-call deltas |
| StreamProperties.FreshIndexing | internal/translator/codex/openai/chat-completions/codex_openai_response.go:260-290 | from a fresh state the n-th function call (0-based) gets index n |
| StreamProperties.FinishReasonTracksCalls | internal/translator/codex/openai/chat-completions/codex_openai_response.go:247-259 | at response.completed the finish reason is tool_calls iff some function_call item came before it, else stop |
| StreamProperties.FinishOnlyOnCompleted | internal/translator/codex/openai/chat-completions/codex_openai_response.go:200-293 | no event other than response.completed emits a finish reason |
| StreamProperties.StreamRestoresName | internal/translator/codex/openai/chat-completions/codex_openai_response.go:260-290 | a function_call with the shortened form of a declared tool emits one assistant chunk with the declared name, call id and arguments at the next index |
| StreamProperties.SecondSummaryPartSeparates | internal/translator/codex/openai/chat-completions/codex_openai_response.go:202-237 | in o3 and think-tags mode, a later summary part makes the next summary delta emit a newline chunk right before the delta, and the pending flag is cleared |
| StreamProperties.FirstSummaryPartDoesNotSeparate | internal/translator/codex/openai/chat-completions/codex_openai_response.go:202-210 | the first summary part of a response sets no pending separator |
| StreamProperties.LegacyNeverPending | internal/translator/codex/openai/chat-completions/codex_openai_response.go:202-226 | in legacy and current mode the summary flags never change |
| StreamProperties.StepPending | internal/translator/codex/openai/chat-completions/codex_openai_response.go:202-237 | one call keeps the invariant that a pending separator implies o3 or think-tags mode and an earlier summary; the flag is newly set only by a summary-part-added event after a summary was already seen, in o3 or think-tags mode |
| StreamProperties.RunKeepsPendingInv | internal/translator/codex/openai/chat-completions/codex_openai_response.go:202-237 | that invariant holds after any sequence of calls that starts where it holds |
| StreamProperties.FreshPendingInv | internal/translator/codex/openai/chat-completions/codex_openai_response.go:202-237 | from a fresh state, a pending separator after any sequence of calls means the request's mode is o3 or think-tags and a summary was already seen |
| StreamProperties.RunKeepsMode | internal/translator/codex/openai/chat-completions/codex_openai_response.go:142-146 | over any sequence of calls the mode, once resolved, stays the request's |
| StreamProperties.ReasoningDeltaSeparator | internal/translator/codex/openai/chat-completions/codex_openai_response.go:211-239 | a reasoning delta emits an optional open tag, then the "\n" separator exactly when it is a summary delta and the flag is pending, then the delta; the flag is cleared exactly when the separator is emitted |
| StreamProperties.LegacyOneChunkPerDelta | internal/translator/codex/openai/chat-completions/codex_openai_response.go:222-226 | in legacy and current mode each reasoning delta is exactly one chunk carrying the delta unchanged, as summary and reasoning or as reasoning |
| StreamProperties.PlainTextScenario | internal/translator/codex/openai/chat-completions/codex_openai_response.go:114-294 | created, one text delta, completed in current mode gives exactly a content chunk and a stop chunk with the response id |
| StreamProperties.ThinkTagsScenario | internal/translator/codex/openai/chat-completions/codex_openai_response.go:114-294 | in think-tags mode a reasoning delta then text gives open tag, reasoning, text, close tag and the stop chunk; the close chunk also carries stop |
| NonStreamTranslator.JoinStep | internal/translator/codex/openai/chat-completions/codex_openai_response.go:375-400 | one accumulation step extends the blank-line join of the non-empty segments by the new segment |
| NonStreamTranslator.JoinTrimmed | internal/translator/codex/openai/chat-completions/codex_openai_response.go:375-400 | a join of trimmed segments is trimmed |
| NonStreamTranslator.FirstOutputText | internal/translator/codex/openai/chat-completions/codex_openai_response.go:403-411 | the text is that of the first `output_text` part, and no earlier part is one |
| NonStreamTranslator.LastOutputText | internal/translator/codex/openai/chat-completions/codex_openai_response.go:401-411 | a non-empty content text is the text of some message item |
| NonStreamTranslator.LastMessageWins | internal/translator/codex/openai/chat-completions/codex_openai_response.go:401-411 | a later message item with output text replaces the text of every earlier one |
| NonStreamTranslator.AppendSummaryParts | internal/translator/codex/openai/chat-completions/codex_openai_response.go:371-382 | the loop's result is the join of the earlier segments plus the trimmed non-empty summary_text texts |
| NonStreamTranslator.AppendContentParts | internal/translator/codex/openai/chat-completions/codex_openai_response.go:384-393 | the loop's result is the join of the earlier segments plus every part's trimmed non-empty text |
| NonStreamTranslator.FindOutputText | internal/translator/codex/openai/chat-completions/codex_openai_response.go:403-411 | the loop stops at the first output_text part and returns `FirstOutputText` |
| NonStreamTranslator.CollectReasoning | internal/translator/codex/openai/chat-completions/codex_openai_response.go:369-400 | a reasoning item extends the summary and full joins by its summary, content and flat-text segments |
| NonStreamTranslator.CollectOutput | internal/translator/codex/openai/chat-completions/codex_openai_response.go:357-436 | the walk returns the last message text, the summary and full joins, and the tool calls in order, each equal to its reference definition |
| NonStreamTranslator.ConvertNonStream | internal/translator/codex/openai/chat-completions/codex_openai_response.go:309-471 | nothing unless the type is response.completed; id, created (or the current time), model (or "model"), usage, finish reason stop iff status is completed; the message is built from `output` when it is an array, else the bare assistant message |
| NonStreamTranslator.CollectedTextsTrimmed | internal/translator/codex/openai/chat-completions/codex_openai_response.go:375-400 | the two reasoning texts handed to the mode formatting are already trimmed |
| NonStreamTranslator.O3CombinesCollected | internal/translator/codex/openai/chat-completions/codex_openai_response.go:57-61 | in o3 mode with both texts present, the structured reasoning is summary, blank line, full |
| NonStreamTranslator.FinalMessageCalls | internal/translator/codex/openai/chat-completions/codex_openai_response.go:437-455 | the final message's tool calls are the function_call items in order, in every mode |
| NonStreamTranslator.CallsOfItems | internal/translator/codex/openai/chat-completions/codex_openai_response.go:412-436 | there is one call per function_call item, in the items' order |
| NonStreamTranslator.NonStreamRestoresName | internal/translator/codex/openai/chat-completions/codex_openai_response.go:420-427 | a function_call with the shortened form of a declared tool is reported with the declared name |
| NonStreamTranslator.StreamAgreesOnCalls | internal/translator/codex/openai/chat-completions/codex_openai_response.go:412-434 | the streaming and final paths report the same call for an item, except for a nameless item when "" is a shortened name |
| NonStreamTranslator.NoReasoningPlainMessage | internal/translator/codex/openai/chat-completions/codex_openai_response.go:437-458 | when the collected summary and full reasoning texts are both empty (every segment blank, as for a reasoning item carrying only encrypted content) the message holds only the collected content and calls, in every mode |
| NonStreamTranslator.OpaqueReasoningCollectsNothing | internal/translator/codex/openai/chat-completions/codex_openai_response.go:371-399 | a reasoning item with no summary parts, no content parts and a blank flat text collects no summary text and no full text |
| CodexSettings.RewriteLeavesNoSystemRole | internal/runtime/executor/codex_settings.go:103-112 | after the rewrite no `input` element has role "system" in any casing |
| CodexSettings.RewriteKeepsOtherFields | internal/runtime/executor/codex_settings.go:108-111 | the rewrite changes no field other than `role` |
| CodexSettings.RewriteIdempotent | internal/runtime/executor/codex_settings.go:103-112 | rewriting twice is the same as rewriting once |
| CodexSettings.ApplyCompatibilityMode | internal/runtime/executor/codex_settings.go:93-114 | `instructions` is gone; an `input` array has its system roles rewritten element by element; every other key is kept; a non-object payload is unchanged |
| CodexSettings.ApplyCommandSettings | internal/runtime/executor/codex_settings.go:12-36 | effort and summary read back as given when configured and are otherwise unchanged; every other `reasoning` field reads back as before; compatibility mode applies the rewrite; web search installs `[{"type":"web_search"}]` exactly when tools are missing, not an array or empty; every top-level key other than `reasoning`, `instructions`, `input` and `tools` is kept, and `reasoning` itself is kept when neither effort nor summary is configured; no settings means no change |
| CodexSettings.PatchReasoning | internal/runtime/executor/codex_settings.go:14-23 | a configured effort or summary reads back at `reasoning.effort` / `reasoning.summary` on an object payload; a non-object payload, or no configured effort or summary, leaves the payload as it was; every other `reasoning` field and every top-level key other than `reasoning` is kept |
| CodexSettings.AnnotationPayload | internal/runtime/executor/codex_settings.go:42-53 | `reasoning_compat` is always present; each switch is present iff on, and then true; there are no other keys |
| CodexSettings.Annotate | internal/runtime/executor/codex_settings.go:38-59 | an empty, malformed or non-object request is unchanged; otherwise only `__codex_settings` changes, to the annotation object |
| CodexSettings.AnnotateResolveRoundTrip | internal/runtime/executor/codex_settings.go:54-58 | resolving an annotated request gives the normalized configured mode, whatever the request held before |
| CodexSettings.AnnotateModeRoundTrip | internal/runtime/executor/codex_settings.go:42-58 | annotating with a mode's own name and resolving gives back exactly that mode |
| CodexSettings.AnnotateLastWins | internal/runtime/executor/codex_settings.go:54 | annotating twice is annotating with the later settings |
| CodexSettings.AnnotationSwitches | internal/runtime/executor/codex_settings.go:45-53 | the annotated request reads `verbose`, `verbose_obfuscation` and `compatibility_mode` as true iff they are on, and absent otherwise |
| CodexSettings.FirstSuffix | internal/runtime/executor/codex_settings.go:78-89 | finds the first candidate suffix in try order that the name ends with, and no earlier candidate matches |
| CodexSettings.SplitReasoningSuffix | internal/runtime/executor/codex_settings.go:61-91 | a blank name gives no split; a split has an effort from the five levels and a non-empty trimmed base; otherwise the result is all empty |
| CodexSettings.SplitColonSuffix | internal/runtime/executor/codex_settings.go:69-76 | `base:EFFORT` splits into the base and the lower-cased effort, in any casing, even when the base ends in a dash form |
| CodexSettings.SplitSeparatorSuffix | internal/runtime/executor/codex_settings.go:78-89 | `base-effort` and `base_effort` split into the base, with its casing kept, and the effort |
| CodexSettings.EarlierSuffixesMiss | internal/runtime/executor/codex_settings.go:78-81 | a name ending in one candidate suffix ends in no candidate tried before it |
| CodexSettings.BareSuffixDoesNotSplit | internal/runtime/executor/codex_settings.go:82-85 | a bare `-effort` or `_effort` is no split, because the base would be empty |
| CodexSettings.SplitIgnoresCase | internal/runtime/executor/codex_settings.go:66 | names equal up to ASCII case split alike: same outcome, same effort, bases equal up to case |

## Left out

- Byte-level JSON is not modelled. That covers gjson/sjson parsing and encoding, key order, duplicate keys, and number formatting beyond integers. Values are a tree, and an sjson patch whose root is not an object counts as a failed patch that leaves the value unchanged.
- The `data:` line framing is abstracted. A stream line is either not data or a decoded event, with its top-level `model` and its `response.usage`. gjson's `.String()` and `.Int()` projections of odd types are taken as already applied.
- `buildShortNameMap` is not part of this model. It is a function parameter.
- `StreamTranslator.ConvertParams.Step` requires the shortener to be injective on the declared names. So do `StreamTranslator.Convert`, `NonStreamTranslator.CollectOutput` and `NonStreamTranslator.ConvertNonStream`. When two originals share a short name, Go's map iteration order decides which one wins, and that choice is not modelled.
- `ConvertNonStream` does not read the clock: `time.Now().Unix()` is the parameter `now`.
- The context argument and the unused `requestRawJSON` argument are left out.
- Case mapping and `EqualFold` are ASCII only. Unicode case folding is not modelled.
- `config.NormalizeCodexSettings` is not part of this model. Neither are the management HTTP handlers that read and write the settings.
- A request body that is not valid JSON is modelled only for the annotation, which leaves it unchanged. The payload patches take an already parsed tree.
- A message `content` that is neither a string nor null does not occur in the model. Messages are built with string or absent content only.
- Behaviour kept as the code has it, though a reader might expect otherwise:
  - a streaming chunk takes its `model` only from the event's top-level `model`, and otherwise keeps the placeholder "model";
  - the `</think>` chunk emitted at response.completed carries the finish reason too, because it is built from the template after the finish reason was set on it;
  - in the final response, the last message item with an `output_text` part provides the content, not the first.
- A function_call item without a name is treated differently by the two paths. The streaming path looks the empty name up in the reverse map. The final path reports it as "" without a lookup. `StreamAgreesOnCalls` states exactly this difference.
