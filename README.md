# amp-review core, modelled in Dafny

This project models two parts of the amp-review editor extension.

- **The request-building half of `AnthropicClient`.** This covers the constructor's defaults for model, token limit, thinking toggle and thinking budget. It covers the formatting of the system prompt and of tool specifications, and the prompt-cache annotator `withLastMessageCached`. It covers the parameters that `complete` and `countTokens` hand to the Anthropic SDK, and the mapping of the SDK's user-abort error onto a DOM `AbortError`. It also covers the `calculateCost` estimate. Module `AnthropicClient`, file `anthropic_client.dfy`, is pure: the client's configuration is an immutable datatype (`Client`), and every step is a function with lemmas. The SDK is a function parameter from the built parameters to what the SDK does with them.
- **The diagnostic pass `updateDiagnostics`.** It flags the first `TODO` and the first `console.log` on every line of a document. It then replaces that document's entry in the diagnostic collection. Module `Extension`, file `extension.dfy`, is imperative. The collection is a class whose `entries` field maps a URI to its diagnostics. `UpdateDiagnostics` is a method whose `for` loop pushes diagnostics line by line. The loop is proved against the specification function `DiagnosticsFor`, and lemmas state what that list holds.

Helper modules: `Wrappers` (`Option`, for an absent JavaScript property) and `JsStrings`. `JsStrings` holds `includes` and `indexOf`, both specified by the first occurrence of the pattern.

## Model

| member | source | states |
|---|---|---|
| AnthropicClient.NewClient | src/llm/anthropic-client.ts:98-101 | model defaults to `claude-3-7-sonnet-20250219` when absent or ""; maxTokens defaults to 8000 and the thinking budget to 4000 when absent or 0; otherwise the given value is kept; thinking is on unless explicitly false |
| AnthropicClient.FormatSystem | src/llm/anthropic-client.ts:121-123 | `system` is absent exactly when the prompt is absent or ""; otherwise it is a one-element list holding a text block with the prompt (the block is built at lines 121-123 and wrapped in the list at line 140; lines 212-214 apply the same rule) |
| AnthropicClient.FormatTool | src/llm/anthropic-client.ts:126-130 | name and input schema are carried over; the description is the given one, or "" when it is missing |
| AnthropicClient.FormatTools | src/llm/anthropic-client.ts:126-130 | the formatted list has one entry per tool |
| AnthropicClient.FormatToolsPointwise | src/llm/anthropic-client.ts:126-130 | entry i of the formatted list is tool i formatted, so the input order is kept |
| AnthropicClient.ToolsField | src/llm/anthropic-client.ts:141 | `tools` is absent exactly when the tool list is absent (default []) or empty; otherwise it has the same length, with each entry keeping its name and schema and carrying its description or "" |
| AnthropicClient.WithCacheControl | src/llm/anthropic-client.ts:190-193 | the block gets the `ephemeral` marker and is otherwise unchanged |
| AnthropicClient.MarkLastBlock | src/llm/anthropic-client.ts:185-194 | same length; every block but the last is unchanged; the last is the original block plus the marker |
| AnthropicClient.WithLastMessageCached | src/llm/anthropic-client.ts:177-197 | same length; every message but the last is unchanged; output equals input when the list is empty or the last content is a string; otherwise the last message keeps its role and block count, with blocks 0..n-2 unchanged and block n-1 marked |
| AnthropicClient.MarkedPositions | src/llm/anthropic-client.ts:177-197 | a block of the output is marked iff it was marked in the input or it is the last block of the last message |
| AnthropicClient.ExactlyOneBlockMarked | src/llm/anthropic-client.ts:183-194 | on an unmarked conversation whose last message has n >= 1 blocks, the output has exactly one marked block, the last block of the last message |
| AnthropicClient.PlainTextLeftUnmarked | src/llm/anthropic-client.ts:178-182 | with an empty conversation or a string-content last message, the output equals the input and carries no marker |
| AnthropicClient.BuildBaseParams | src/llm/anthropic-client.ts:136-143 | model and max_tokens come from the client; messages are the annotated input; system and tools follow their formatting rules; stream is the given flag (default false); no thinking field |
| AnthropicClient.BuildParams | src/llm/anthropic-client.ts:146-154 | the thinking field is present iff thinking is enabled, with the client's budget; apart from it the params are exactly the base params |
| AnthropicClient.SingleUserMessageScenario | src/llm/anthropic-client.ts:98-154 | a default client sending one user string message builds: no system, the message unchanged, no tools, stream false, thinking with budget 4000 |
| AnthropicClient.SdkCallFor | src/llm/anthropic-client.ts:157-162 | the params go to `beta.messages.stream` iff stream is set, otherwise to `messages.create` |
| AnthropicClient.NormalizeAbortError | src/llm/anthropic-client.ts:163-170 | an `APIUserAbortError` becomes `AbortError("Aborted")`; any other error is rethrown unchanged; no `APIUserAbortError` is ever thrown on |
| AnthropicClient.NormalizeAbortErrorIdempotent | src/llm/anthropic-client.ts:163-170 | mapping twice is the same as mapping once |
| AnthropicClient.CompleteAsWritten | src/llm/anthropic-client.ts:156-170 | a synchronous throw from the SDK call is mapped; a value the call returns, including a promise that later rejects, is handed to the caller as it is |
| AnthropicClient.AbortThroughPromiseEscapes | src/llm/anthropic-client.ts:159-163 | as written, an SDK promise rejected with `APIUserAbortError` reaches the caller with that name |
| AnthropicClient.Complete | src/llm/anthropic-client.ts:156-170 | with the SDK call awaited inside the `try`: no `APIUserAbortError` that the SDK call throws, or that its returned promise rejects with, reaches the caller; a fulfilled call yields its value; both kinds of failure go through the mapping |
| AnthropicClient.CancellationNormalized | src/llm/anthropic-client.ts:163-170 | a provider abort, thrown or delivered by the promise, reaches the caller of `Complete` as the one `AbortError` |
| AnthropicClient.CompleteAgreesUnlessPromiseRejects | src/llm/anthropic-client.ts:156-170 | the corrected and as-written `complete` differ only when the SDK's promise rejects |
| AnthropicClient.BuildCountTokensParams | src/llm/anthropic-client.ts:211-238 | the dry run carries the client's model, the messages unannotated, and the same system and tools rules; its type has no max_tokens, stream or thinking field |
| AnthropicClient.CountTokensMatchesComplete | src/llm/anthropic-client.ts:224-237 | for the same conversation, countTokens sends the model, system and tools that complete sends, and complete's messages are countTokens' messages annotated |
| AnthropicClient.CountTokens | src/llm/anthropic-client.ts:202-241 | the result is the input-token count the service reports for exactly the dry-run params |
| AnthropicClient.CalculateCost | src/llm/anthropic-client.ts:246-268 | cost = (3·input + 15·output + 3.75·cache_creation + 0.3·cache_read) / 1,000,000, with a missing cache count read as 0; never negative; 0 iff every count is 0 |
| AnthropicClient.CostMonotone | src/llm/anthropic-client.ts:260-268 | the cost is non-decreasing in each of the four counts |
| AnthropicClient.MillionOfEachCostsSumOfRates | src/llm/anthropic-client.ts:253-268 | a million tokens of each kind cost the sum of the four rates; an all-zero usage costs 0 |
| JsStrings.IndexOf | src/extension.ts:58-59 | `indexOf` is non-negative iff `includes` holds, and then it is the leftmost occurrence; otherwise it is -1 |
| Extension.LineDiagnostics | src/extension.ts:57-99 | one diagnostic per pattern present in the line: TODO first (range line:i to line:i+4 at the first "TODO", Information, `custom-todo`, `Amp Review`), then console.log (range at the first "console.log", length 11, Warning, `no-console`, `Amp Review`) |
| Extension.DiagnosticsFor | src/extension.ts:54-100 | a document of n lines yields at most 2·n diagnostics |
| Extension.DiagnosticMembership | src/extension.ts:54-100 | a diagnostic is in the document's list iff its line exists and it is one of that line's diagnostics |
| Extension.RangesInBounds | src/extension.ts:58-86 | every range lies on one existing line; its start is >= 0 and its end at most the line's length; it spans 4 characters for TODO and 11 for console.log |
| Extension.DiagnosticsOrdered | src/extension.ts:54-99 | diagnostics appear in ascending line order, and on one line the TODO one precedes the console.log one, so no line has two of the same kind |
| Extension.LineFlaggedExactlyWhenItMatches | src/extension.ts:58-98 | a line holding "TODO" (or "console.log") has the diagnostic at its first occurrence in the list; any diagnostic on a line is of a kind whose pattern that line holds |
| Extension.DiagnosticCount | src/extension.ts:54-100 | the list has one diagnostic per line holding "TODO" plus one per line holding "console.log" |
| Extension.CleanDocumentHasNoDiagnostics | src/extension.ts:54-100 | a document without either pattern, the empty document included, yields no diagnostics |
| Extension.DiagnosticCollection.Delete | src/extension.ts:49 | the URI's entry is removed and every other entry is kept |
| Extension.DiagnosticCollection.Set | src/extension.ts:103 | the URI's entry becomes the given list and every other entry is kept |
| Extension.UpdateDiagnostics | src/extension.ts:47-104 | afterwards the document's entry is exactly the diagnostics of its lines; the entry of every other URI is unchanged |

## Left out

- Construction of the SDK client (`apiKey`, `baseURL`, `dangerouslyAllowBrowser`) and the SDK's network calls. `messages.create`, `beta.messages.stream` and `messages.countTokens` are function parameters. The model states which parameters reach them and what `complete` does with their outcome.
- Streaming iteration, `AbortSignal` propagation and cancellation timing. These are asynchronous I/O. In stream mode the SDK returns a stream object. Errors raised while that stream is iterated are outside the model. Such an abort escapes unmapped in the source and would still escape with the SDK call awaited, so neither `CompleteAsWritten` nor `Complete` promises a mapped abort during stream iteration.
- AnthropicClient.CountTokens: a failure of the awaited count request is not modelled. In the source it propagates to the caller unchanged, with no mapping.
- Floating-point rounding in `calculateCost`. The formula is stated over exact `real` arithmetic. Token counts are taken as natural numbers.
- JavaScript numbers are modelled as unbounded integers. The falsy value `NaN` for `maxTokens` or `thinkingBudgetTokens` is not modelled. A negative value is truthy and is kept, as in the source.
- Each property schema of a tool is kept as opaque serialised text. The client only passes the schema through.
- Strings are sequences of `char`, and each `char` stands for one UTF-16 code unit, as in JavaScript strings and VS Code positions. Read one `char` per code point instead, and a character outside the Basic Multilingual Plane that comes before the pattern would make the model's offsets one smaller than those of `indexOf` and of the range.
- The duplicated `Message` and `ToolSpec` declarations (src/llm/anthropic-client.ts:6-30 and 39-63) are identical, so each type is modelled once.
- `activate` and `deactivate` (src/extension.ts:5-45, 106-110) are left out: command and event registration, disposal and logging are host plumbing. So are the commented-out usage example in src/llm/anthropic-client.ts and the live smoke script src/llm/anthropic-client.test.ts.
- The builder being deterministic is not a separate lemma. Every builder is a Dafny function, so equal inputs always give equal outputs.
- A block-array `content` may be empty. The annotator then returns the message unchanged, and `WithLastMessageCached` states this (`MarkLastBlock` of an empty list is empty).

## Findings

| source | as written | input that shows it | evidently intended | confidence | as-written member | corrected member |
|---|---|---|---|---|---|---|
| src/llm/anthropic-client.ts:156-170 | the `try` block returns the SDK's promise without awaiting it, so the `catch` only sees errors thrown synchronously | `messages.create` returns a promise that rejects with an `APIUserAbortError` when the signal fires mid-request; the caller receives `APIUserAbortError`, not `AbortError` | every user abort that the SDK call throws, or that its returned promise rejects with, reaches the caller as `AbortError` (the SDK call awaited inside the `try`). In stream mode an abort raised while the stream is iterated escapes unmapped in both versions: awaiting the stream object does not reach those errors. So neither version maps aborts in every mode | not executed; high: a promise returned unawaited from an async function cannot reject into its surrounding `try` | AnthropicClient.AbortThroughPromiseEscapes | AnthropicClient.CancellationNormalized |
