# termster agent core in Dafny

termster is a terminal with a language-model assistant beside it. This
project models the agent side of that assistant and proves properties of the
model:

- the command history the shell records, and the query over it that the model can make;
- the two tools the model may call, reading that history and running a command that needs approval, plus the registry that dispatches between them;
- the chat loop: the first request of a turn, the tool rounds that answer each response's function calls, and text extraction;
- the chat-entry log and the approval gate, and the keystroke handler of the prompt;
- the helpers that fit entries into a pane: the line-budget viewport, the bounded scroll buffer and the prompt pane's window;
- the sanitizer that turns cursor-forward control sequences into spaces.

One module per source file:

| module | file |
|---|---|
| `Wrappers` | `Option` |
| `Js` | the JavaScript primitives the code relies on: `trim`, `slice` with relative indexes, `join`, number to string, `parseInt` of a digit run |
| `TerminalHistory` | `src/services/terminal-history.ts` |
| `ToolTypes` | tool arguments, results and the terminal executor |
| `HistoryTool` | `src/tools/terminal-history.ts` |
| `MutableTool` | `src/tools/mutable-execution.ts` |
| `Tools` | `src/tools/index.ts` |
| `EchoApi` | `src/types/echo-api.ts` |
| `Llm` | `src/services/llm.ts`, with the instruction texts of `src/constants.ts` |
| `LlmChat` | `src/hooks/useLLMChat.ts` |
| `PromptContext` | `handleInput` of `src/contexts/PromptContext.tsx` |
| `Viewport` | `src/utils/viewport.ts` |
| `VirtualScroll` | `src/hooks/useVirtualScroll.ts` |
| `PromptPane` | the window computations of `src/PromptPane.tsx` |
| `Sanitizer` | `src/terminal-sanitizer.ts` |

Objects whose fields the code updates are now classes:
`TerminalHistoryService`, `ChatLoop`, the hook state `ChatState`, `PromptInput` and
`ScrollBuffer`. Their methods are specified by functions of the old state, and
the properties are proved about those functions. The rest is datatypes and
functions. The outside world comes in as parameters:

- The remote model is an oracle `Api`. It maps every request sent so far to the response to the last one.
- The terminal executor is a function from a command to its output or a thrown message.
- Timestamps are opaque strings.
- Tool arguments are an already-parsed map.
- A loop with no bound in the code carries a `fuel` bound.

## Model

| member | source | states |
|---|---|---|
| TerminalHistory.Appended | src/services/terminal-history.ts:20-25 | the log after a push holds min(n+1, 100) records, the new one last, the oldest evicted first and the rest in order; below the bound nothing is dropped |
| TerminalHistory.SafeCount | src/services/terminal-history.ts:30 | the count used lies in 1..20 and equals the one asked for when that is already in range |
| TerminalHistory.SafeSkip | src/services/terminal-history.ts:31 | the skip used is never negative and equals a non-negative skip asked for |
| TerminalHistory.TruncatedOutput | src/services/terminal-history.ts:54 | an output of at most 500 characters is kept whole; a longer one is cut to its first 500 with `...[truncated]` after them |
| TerminalHistory.FormattedEntries | src/services/terminal-history.ts:45-56 | one text per command, the i-th numbered i+1 |
| TerminalHistory.TerminalHistoryService.constructor | src/services/terminal-history.ts:9 | a new log is empty |
| TerminalHistory.TerminalHistoryService.AddCommand | src/services/terminal-history.ts:12-26 | the trimmed input and output are appended, and the log stays within 100 records |
| TerminalHistory.TerminalHistoryService.GetRecentCommands | src/services/terminal-history.ts:28-38 | the result has min(safeCount, max(0, n − safeSkip)) records, never more than 20, none when skip ≥ n, and its i-th record is the (safeSkip+i+1)-th newest, so newest first |
| TerminalHistory.TerminalHistoryService.FormatCommandsForLLM | src/services/terminal-history.ts:40-60 | no commands give `No terminal commands found in history.`; one command gives its entry alone |
| TerminalHistory.TerminalHistoryService.Clear | src/services/terminal-history.ts:62-64 | the log is empty afterwards |
| TerminalHistory.FormatAppend | src/services/terminal-history.ts:45-57 | one more command adds exactly one entry, numbered next, after a newline |
| TerminalHistory.NoOutputModeIgnoresOutputs | src/services/terminal-history.ts:49-50 | in no-output mode the text does not depend on any output |
| TerminalHistory.FullModeSeesOutputPrefixOnly | src/services/terminal-history.ts:52-55 | in full mode only each output's first 500 characters, and whether it was longer, reach the text |
| ToolTypes.Text | src/tools/mutable-execution.ts:41-44 | a string argument interpolates as itself and a missing one as `undefined` |
| HistoryTool.NumberOr | src/tools/terminal-history.ts:53-54 | a falsy argument gives the default; a non-zero number argument gives itself |
| HistoryTool.QueryOf | src/tools/terminal-history.ts:89-91 | count defaults to 5 and is never 0, skip defaults to 0, and no_output is the argument's truthiness |
| HistoryTool.Render | src/tools/terminal-history.ts:52-62 | the summary is `History(` and the count, then the skip and output options, then `) → `, the count again and ` lines` |
| HistoryTool.SkipPart | src/tools/terminal-history.ts:58 | the skip option is shown exactly when the skip is positive |
| HistoryTool.OutputPart | src/tools/terminal-history.ts:59 | the no-output option is shown exactly when outputs are left out |
| HistoryTool.RenderIdentifiesQuery | src/tools/terminal-history.ts:58-61 | two calls with the same summary make the same query and read the same result |
| HistoryTool.ReadTerminalHistory | src/tools/terminal-history.ts:85-102 | a read succeeds with the formatted result of the defaulted query |
| HistoryTool.Execute | src/tools/terminal-history.ts:69-83 | it succeeds exactly for `read_terminal_history`; any other name fails with `Unknown tool: <name>` |
| HistoryTool.DefaultQuery | src/tools/terminal-history.ts:89-102 | a call without arguments reads the five newest commands with their output |
| MutableTool.Render | src/tools/mutable-execution.ts:40-45 | the summary is `Execute(` and the command, then `) → ` and the reason |
| MutableTool.RenderApproval | src/tools/mutable-execution.ts:46-51 | the prompt is `Execute '` and the command, then `'? (`, the reason and `)`, then ` [Enter=Yes, Esc=No]` |
| MutableTool.TruncateOutput | src/tools/mutable-execution.ts:107-110 | up to 500 characters are kept whole; a longer output becomes `...` and its last 500, so at most 503 characters |
| MutableTool.TruncatedOutputIsTail | src/tools/mutable-execution.ts:107-110 | what is kept is the tail of the output, in order |
| MutableTool.ExecuteMutableCommand | src/tools/mutable-execution.ts:75-133 | a missing or empty command fails with `Command is required`, then a missing executor with `Terminal executor not available`; a success means the command ran and completed, and carries its truncated output |
| MutableTool.Execute | src/tools/mutable-execution.ts:59-73 | any name but `execute_mutable_command` fails with `Unknown tool: <name>` |
| MutableTool.MissingCommandBeforeExecutor | src/tools/mutable-execution.ts:82-101 | without a command the result is `Command is required` whatever the executor, so the command check comes first |
| MutableTool.ExecutionOutcome | src/tools/mutable-execution.ts:104-131 | a thrown error becomes `Failed to execute command: <msg>`; a completed command succeeds with its truncated output, at most 503 characters |
| Tools.GetOpenAITools | src/tools/index.ts:16-24 | the definitions of the catalogue, in its order: history, then mutable command |
| Tools.FindIndex | src/tools/index.ts:31 | the first tool with that name, or none when no tool has it |
| Tools.CatalogueLookup | src/tools/index.ts:16-19 | `read_terminal_history` is at 0, `execute_mutable_command` at 1, any other name absent |
| Tools.RenderToolCall | src/tools/index.ts:27-36 | an unknown name gives `Unknown tool: <name>`, a known one its tool's summary |
| Tools.RenderToolCallDispatch | src/tools/index.ts:27-36 | each tool renders its own calls and any other name is reported unknown |
| Tools.RenderToolApprovalDispatch | src/tools/index.ts:39-51 | the mutable tool's prompt, the missing-renderer notice for the history tool, `Unknown tool: <name>` otherwise |
| Tools.RequiresApprovalExactly | src/tools/index.ts:54-57 | a call needs approval exactly when it names `execute_mutable_command` |
| Tools.ToolRegistry.Execute | src/tools/index.ts:94-136 | a history call without a service fails with `Terminal history service not available`; otherwise each call goes to its executor and its result is returned unchanged; an unknown name fails as unknown |
| Tools.RegistryMatchesCatalogue | src/tools/index.ts:102-123 | a name outside the catalogue fails as unknown, and a success always names a catalogued tool |
| EchoApi.GuardsMatchKinds | src/types/echo-api.ts:36-46 | `isMessageItem` and `isFunctionCallItem` hold exactly for their kinds and never together |
| Llm.FirstInput | src/services/llm.ts:69-73 | the newest item alone when a response id is held, otherwise the whole history |
| Llm.FunctionCalls | src/services/llm.ts:157-158 | only function-call items, never more than the response holds |
| Llm.ToolOutputs | src/services/llm.ts:157-178 | one output per function call, in order, with the call's id and the value the callback gave |
| Llm.FunctionCallsAppend | src/services/llm.ts:157-158 | the calls of two runs of items are those of the first, then those of the second |
| Llm.ToolOutputsAppend | src/services/llm.ts:157-178 | the outputs of a response in two parts are the outputs of each part, in order |
| Llm.MessagesGiveNoOutputs | src/services/llm.ts:158 | message items give no outputs |
| Llm.FunctionCallsSingle | src/services/llm.ts:157-158 | a single item is kept exactly when it is a function call |
| Llm.FunctionCallsMembers | src/services/llm.ts:157-158 | an item is among the calls exactly when it is a function-call item of the response |
| Llm.NoOutputsWithoutCalls | src/services/llm.ts:78-83 | there are no outputs, so the tool loop stops, exactly when no item of the response is a function call |
| Llm.OutputsAnswerCalls | src/services/llm.ts:168-172 | each output carries the id of the call it answers |
| Llm.CompletedTexts | src/services/llm.ts:137-147 | the texts handed on, never more than the items and none empty |
| Llm.CompletedTextsAppend | src/services/llm.ts:137-147 | texts of two runs of items are those of each, in order |
| Llm.CompletedTextsSingle | src/services/llm.ts:137-147 | a single item gives its message text exactly when it is a message with content whose text is not empty |
| Llm.OutputTextsSingle | src/services/llm.ts:140-142 | a single piece of content gives its text exactly when it is `output_text` |
| Llm.OutputTextsAppend | src/services/llm.ts:140-142 | the texts of two runs of content are those of the first, then those of the second |
| Llm.CallsGiveNoText | src/services/llm.ts:138 | a function call adds no text |
| Llm.ToolRounds | src/services/llm.ts:78-90 | the tool loop only appends to the requests sent |
| Llm.ChatRun | src/services/llm.ts:65-90 | a turn only appends, and its first request carries the first input, the initial instructions and the previous response id |
| Llm.ToolRoundsStep | src/services/llm.ts:79-89 | a response with tool outputs is followed by one request with exactly those outputs |
| Llm.ToolRoundsEnd | src/services/llm.ts:83-93 | an error is the last request's; otherwise the id kept is the last response's, and an answer comes only from a response with no tool outputs, with its texts |
| Llm.ToolRoundsAt | src/services/llm.ts:79-89 | each request the loop adds answers the response before it with that response's outputs and id |
| Llm.ToolRoundsFollowUps | src/services/llm.ts:78-93 | every follow-up answers the previous response, which asked for tools, and the loop ends as in `ToolRoundsEnd` |
| Llm.ChatLoop.constructor | src/services/llm.ts:28-36 | a tool registry exists exactly when a history service was given |
| Llm.ChatLoop.AddUserMessage | src/services/llm.ts:50-57 | exactly one user message is appended and nothing else changes |
| Llm.ChatLoop.MakeApiCall | src/services/llm.ts:101-131 | one request is sent, continuing the last response, and a response makes its id the one kept |
| Llm.ChatLoop.ProcessFunctionCalls | src/services/llm.ts:150-179 | the loop gives exactly `ToolOutputs` of the response |
| Llm.ChatLoop.ToolLoop | src/services/llm.ts:78-90 | the `while` loop sends and ends as `ToolRounds` says |
| Llm.ChatLoop.Chat | src/services/llm.ts:59-99 | the message is recorded, and the requests, the id kept and the outcome are those of `ChatRun` |
| Llm.ChatLoop.GetHistory | src/services/llm.ts:181-183 | the history, which holds only user messages |
| Llm.ChatLoop.ClearHistory | src/services/llm.ts:185-188 | the history is empty and no response id is kept |
| Llm.FirstRequestInput | src/services/llm.ts:65-75 | with no id the first request carries every message, and with one only the new message |
| Llm.NoToolLoopWithoutTools | src/services/llm.ts:78 | without a callback or an executor a turn is one request, answered with its response's texts |
| Llm.TurnFollowUps | src/services/llm.ts:65-93 | every request after the first answers the response before it, and an answer comes only from a response that asks for no tool |
| LlmChat.Without | src/hooks/useLLMChat.ts:157-159 | the filter never lengthens the log |
| LlmChat.WithoutMembers | src/hooks/useLLMChat.ts:157-159 | the filter keeps each entry not of the kind and nothing else |
| LlmChat.WithoutAppend | src/hooks/useLLMChat.ts:157-159 | filtering distributes over appending |
| LlmChat.WithoutIdempotent | src/hooks/useLLMChat.ts:157-159 | filtering twice is filtering once |
| LlmChat.Rewrite | src/hooks/useLLMChat.ts:156-168 | the new entries close the log |
| LlmChat.RewriteMembers | src/hooks/useLLMChat.ts:156-168 | the log afterwards holds the old entries of other kinds and the new ones, nothing else |
| LlmChat.RewriteTwice | src/hooks/useLLMChat.ts:224-235 | two rewrites dropping one kind, the first adding none of it, drop that kind once and keep both additions in order |
| LlmChat.RewriteDropsKind | src/hooks/useLLMChat.ts:157-167 | after a rewrite no entry of the dropped kind is left |
| LlmChat.ResultText | src/hooks/useLLMChat.ts:200 | a success gives its output, a failure `Error: ` and its error, or `Error: undefined` without one |
| LlmChat.ChatState.constructor | src/hooks/useLLMChat.ts:48-59 | an empty log, nothing loading or pending, and a chat service exactly when a history service was given |
| LlmChat.ChatState.AddCommand | src/hooks/useLLMChat.ts:61-64 | exactly one `command` entry is appended |
| LlmChat.ChatState.SendMessage | src/hooks/useLLMChat.ts:130-143 | ignored without a chat service or while loading; otherwise `text` and `thinking` entries are appended and loading starts |
| LlmChat.ChatState.OnToolCall | src/hooks/useLLMChat.ts:146-204 | an approval tool replaces `thinking` with its prompt and waits; any other tool replaces `thinking` with its summary and a new `thinking`, and is answered with its result, or `Tool execution not available` |
| LlmChat.ChatState.AwaitApproval | src/hooks/useLLMChat.ts:150-175 | the prompt replaces `thinking`, and the call is pending and waiting |
| LlmChat.ChatState.RunToolCall | src/hooks/useLLMChat.ts:176-203 | the call's summary replaces `thinking`, followed by a new `thinking`, and the reply is the registry's result text |
| LlmChat.ChatState.ApproveToolCall | src/hooks/useLLMChat.ts:66-109 | nothing without a pending call and a waiting resolver; otherwise the prompt gives way to `Approved` and `thinking`, nothing stays pending, and the call executes, or is answered `Tool execution not available` when there is no executor |
| LlmChat.ChatState.FinishApprovedCall | src/hooks/useLLMChat.ts:82-102 | `thinking` gives way to the call's summary and the waiting call is answered with its result text |
| LlmChat.ChatState.RejectToolCall | src/hooks/useLLMChat.ts:111-128 | nothing without a pending call and a waiting resolver; otherwise the prompt gives way to `Rejected`, the call is answered `Tool execution was rejected by user`, and nothing stays pending |
| LlmChat.ChatState.OnComplete | src/hooks/useLLMChat.ts:205-221 | `thinking` gives way to one `assistant` entry with the message, and loading ends |
| LlmChat.ChatState.OnError | src/hooks/useLLMChat.ts:222-238 | `thinking` gives way to one `assistant` entry `Error: <message>`, and loading ends |
| LlmChat.ChatState.ChatFailed | src/hooks/useLLMChat.ts:241-245 | a failed turn leaves no `thinking` and two `Error: <message>` entries, one from the loop and one from the catch |
| PromptContext.Route | src/contexts/PromptContext.tsx:53-89 | while an approval is pending the line never changes; at most two calls per keystroke |
| PromptContext.PromptInput.HandleInput | src/contexts/PromptContext.tsx:53-89 | the line afterwards and the calls made are those of `Route` |
| PromptContext.PendingBlocksInput | src/contexts/PromptContext.tsx:55-65 | while pending, Enter only approves, Escape only rejects, and no other key does anything |
| PromptContext.NoAnswerWithoutPending | src/contexts/PromptContext.tsx:67-88 | with nothing pending no key approves or rejects |
| PromptContext.BlankEnterDoesNothing | src/contexts/PromptContext.tsx:67-68 | Enter on a blank line changes nothing and calls nothing |
| PromptContext.SubmitClears | src/contexts/PromptContext.tsx:67-83 | Enter on text clears the line and sends it, or, after `/`, records the whole line and runs it without the `/` |
| PromptContext.TypingAppends | src/contexts/PromptContext.tsx:86-87 | a plain key appends its text |
| PromptContext.BackspaceUndoesTyping | src/contexts/PromptContext.tsx:84-85 | Backspace undoes a one-character keystroke and leaves an empty line empty |
| Js.TrimEmptyIffBlank | src/contexts/PromptContext.tsx:68 | a line trims to nothing exactly when it is all white space |
| Js.SliceFromNegative | src/hooks/useVirtualScroll.ts:31 | `slice(-k)` with k > 0 is the last min(k, n) elements |
| Viewport.EstimateEntryLines | src/utils/viewport.ts:18-28 | the fewest whole lines holding `[timestamp] command` at the width, and at least one |
| Viewport.TotalLines | src/utils/viewport.ts:52 | a run of entries takes at least one line per entry |
| Viewport.SuffixLinesGrow | src/utils/viewport.ts:43-56 | a longer suffix takes at least the lines of the shorter plus the entry before it |
| Viewport.CalculateVisibleEntries | src/utils/viewport.ts:34-66 | the visible entries are a suffix, in order, whose lines sum to usedLines ≤ max(0, availableLines); hiddenCount is the rest; the newest hidden entry does not fit, and no longer suffix fits at all |
| VirtualScroll.Trimmed | src/hooks/useVirtualScroll.ts:28-33 | a suffix of the combined items, all of them when within the bound |
| VirtualScroll.TrimmedKeepsNewest | src/hooks/useVirtualScroll.ts:30-33 | with a positive bound, the newest maxItems items in order, never more |
| VirtualScroll.ZeroBoundKeepsAll | src/hooks/useVirtualScroll.ts:30-31 | a bound of 0 reads as `slice(0)` and keeps everything |
| VirtualScroll.NegativeBoundDropsOldest | src/hooks/useVirtualScroll.ts:30-31 | a bound −k drops the k oldest items |
| VirtualScroll.TrimmedAppend | src/hooks/useVirtualScroll.ts:26-46 | adding in batches ends where adding everything at once does |
| VirtualScroll.Visible | src/hooks/useVirtualScroll.ts:57-64 | the shown items are a suffix when following the bottom and a prefix otherwise |
| VirtualScroll.VisibleCount | src/hooks/useVirtualScroll.ts:57-64 | with a positive window exactly min(n, items) are shown |
| VirtualScroll.ZeroWindow | src/hooks/useVirtualScroll.ts:57-64 | a zero window shows everything at the bottom and nothing otherwise |
| VirtualScroll.ScrollBuffer.constructor | src/hooks/useVirtualScroll.ts:23-24 | no items, and a window of 50 |
| VirtualScroll.ScrollBuffer.AddItem | src/hooks/useVirtualScroll.ts:26-35 | the items become `Trimmed(items + [item])` |
| VirtualScroll.ScrollBuffer.AddItems | src/hooks/useVirtualScroll.ts:37-46 | the items become `Trimmed(items + newItems)` |
| VirtualScroll.ScrollBuffer.Clear | src/hooks/useVirtualScroll.ts:48-50 | no items afterwards |
| VirtualScroll.ScrollBuffer.SetMaxVisibleItems | src/hooks/useVirtualScroll.ts:24 | the window changes and the items do not |
| VirtualScroll.ScrollBuffer.VisibleItems | src/hooks/useVirtualScroll.ts:57-64 | with a positive window, the newest n items at the bottom and the oldest n otherwise |
| VirtualScroll.AddItemOutcome | src/hooks/useVirtualScroll.ts:26-35 | with a positive bound the added item is last, the buffer stays within the bound, and below it nothing is lost |
| PromptPane.VisibleLines | src/PromptPane.tsx:18 | max(5, height − 4), so never less than 5 |
| PromptPane.VisibleHistory | src/PromptPane.tsx:21-23 | the newest visibleLines entries |
| PromptPane.Banner | src/PromptPane.tsx:63-65 | a banner exactly when entries are hidden |
| PromptPane.WindowSplitsHistory | src/PromptPane.tsx:21-26 | min(n, visibleLines) newest entries are shown, the hidden ones are exactly the older rest, at least 0 of them, and there are some exactly when the log is longer than the window |
| PromptPane.TallerHidesLess | src/PromptPane.tsx:18-25 | a taller pane hides no more entries |
| Sanitizer.EscFreeUnchanged | src/terminal-sanitizer.ts:13 | a string without ESC is returned unchanged |
| Sanitizer.CursorForwardReplaced | src/terminal-sanitizer.ts:13-16 | each `ESC[<digits>C` becomes exactly parseInt(digits) spaces |
| Sanitizer.FifteenColumns | src/terminal-sanitizer.ts:8 | `ESC[15C` becomes fifteen spaces |
| Sanitizer.ColourSequenceKept | src/terminal-sanitizer.ts:13 | an SGR colour sequence `ESC[…m` is copied through |
| Sanitizer.CursorUpKept | src/terminal-sanitizer.ts:13 | `ESC[A` is copied through |
| Sanitizer.SanitizedLength | src/terminal-sanitizer.ts:13-16 | output length = input length − Σ(digits + 3) + Σ counts over the replaced sequences |
| Sanitizer.ZeroCountBreaksIdempotence | src/terminal-sanitizer.ts:13-16 | as written, `ESC ESC[0C[5C` sanitizes to `ESC[5C`, which sanitizes again to five spaces |
| Sanitizer.SanitizedHasNoCursorForward | src/terminal-sanitizer.ts:13-16 | with a zero count read as one, no cursor-forward sequence is left |
| Sanitizer.SanitizeWithDefaultCountIdempotent | src/terminal-sanitizer.ts:13-16 | with a zero count read as one, sanitizing twice is sanitizing once |

## Left out

- Timestamps come in as parameters. Their `Date`/`toLocaleTimeString` text depends on the clock and the locale.
- `console.error` and every `Logger` call are left out, including the timing in `ToolRegistry.execute`. None of them changes a result.
- The remote API client, request timeout and `Promise.race` are left out. They are network and concurrency. The response to a request is the oracle's value.
- The request constants `model`, `stream`, `parallel_tool_calls`, `store` and `tool_choice` are left out, and so is the tool list. A request records `withTools` in their place, meaning the tool list is sent.
- `ChatLoop.initialize`, the API key and the config service are left out. They read the filesystem and the environment.
- `JSON.parse` of a call's arguments is left out because it is a foreign parser. A call carries its arguments already parsed, which also drops the error a bad JSON string would throw.
- Arguments of the wrong type are left out: a `count` or `skip` that is not a number, and a `command` that is not a string. Their JavaScript coercions are not modelled. A non-number count or skip is read as missing, and numbers are integers.
- HistoryTool.ReadTerminalHistory: the `catch` branch is left out. The service's methods cannot throw in the model.
- Viewport.CalculateVisibleEntries: states usedLines ≤ max(0, availableLines) rather than usedLines ≤ availableLines. With a negative budget nothing fits and 0 lines are used, so the plain bound fails there.
- Viewport.EstimateEntryLines: requires a positive width. At width 0 the code divides by zero and gets `Infinity`. At a negative width the quotient is negative, so the code returns `Math.max(1, …)`, which is 1.
- A string is a sequence of Unicode scalar values, where JavaScript counts UTF-16 code units. The two agree for characters below U+10000; a character above it is one element here and two code units there. This affects these members:
  - PromptContext.BackspaceUndoesTyping: in the code, Backspace after an emoji removes only its low surrogate.
  - TerminalHistory.TruncatedOutput and MutableTool.TruncateOutput: they cut at 500 scalar values, not 500 code units.
  - Viewport.EstimateEntryLines: it counts scalar values, not code units.
- Sanitizer.SanitizeTerminalOutput: a count too large for a string, or one `parseInt` reads as `Infinity`, makes `' '.repeat` throw a `RangeError`. The model gives that many spaces instead.
- The chat loop's `while` and the tool rounds carry a `fuel` bound. Running out gives `OutOfFuel`, which the code has no counterpart for. The code's loop has no bound.
- `ChatLoop` takes the tool callback as a pure function from call to reply.
  - `ChatState` models the same callback as the `OnToolCall`, `ApproveToolCall`, `FinishApprovedCall` and `RejectToolCall` events, since it is asynchronous and waits for the user.
  - The two halves are not composed into one run, and the interleaving of awaits and React state updates is not modelled.
- LlmChat.ChatState.OnToolCall: requires that no earlier call is still waiting. The loop awaits each tool call before it issues the next.
- `onComplete` is modelled per turn as the list of texts in `ChatOutcome.Answered`. The hook's per-text calls are `OnComplete`, one per text.
- `scrollToBottom` is left out because it is a no-op.
- The `TOOL_CALL` regular expression and the colouring of `PromptPane` rows are left out. They only affect how a row is drawn.
- The React components, the PTY, the terminal executor's implementation, the animations and the CLI are left out. They are I/O and presentation. The executor is the abstract function above.

## Findings

| source | as written | input that shows it | evidently intended | confidence | as-written member | corrected member |
|---|---|---|---|---|---|---|
| src/terminal-sanitizer.ts:13-16 | `ESC[0C` becomes no spaces, so an ESC just before it can join the text after it into a new cursor-forward sequence, and sanitizing is not idempotent | `ESC ESC[0C[5C` → `ESC[5C` → five spaces | no cursor-forward sequence in the output, so sanitizing twice is sanitizing once, as with a zero count read as the ECMA-48 default of one column | medium, not executed | Sanitizer.ZeroCountBreaksIdempotence | Sanitizer.SanitizeWithDefaultCountIdempotent |
