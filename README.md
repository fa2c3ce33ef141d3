# Personal-assistant bot core, modelled in Dafny

The bot receives Lark (Feishu) chat messages. It hands each one to an LLM agent that may
call tools (shell, files, browser, memory, mail, travel, research) for up to ten rounds,
and it sends scheduled reminders back to the chat. This project models the core of that
bot:

- the reminder store (list, add, remove, due jobs) and the scheduler that fires due
  reminders every minute;
- the agent loop: how the history is projected into a chat request, the round limit, and
  how tool calls are parsed and answered;
- the tool registry and the dispatcher that maps a tool name and its JSON arguments to a
  handler call;
- the per-user key/value memory store;
- the webhook body classifier and the message-content parser;
- the research tool's search-count clamp and its summariser.

JavaScript values are modelled explicitly:
- a parsed JSON value is a datatype (`Json.JsonValue`);
- truthiness, `String(x)`, `trim`, `/\s+/g` collapsing and `parseInt(s, 10)` are written
  out in `Json` and `JsText`;
- `String(x)` throws for an object with an own `toString` key, which `JSON.parse` makes a
  plain data property; `Json.Stringable` marks the values it accepts;
- a thrown error is a `Result` error.

Everything the code cannot see is a function-typed parameter. These oracles are:
- the clock's current time, as a number of milliseconds;
- cron-parser's "next run after";
- `Date` parsing of an ISO text;
- `JSON.parse` and `JSON.stringify`;
- the LLM chat call;
- the tool handlers;
- message delivery;
- the random id and the creation timestamp.

Stateful parts of the source are classes:
- `CronStore.JobStore` holds the job list, which the source keeps in a JSON file;
- `CronScheduler.Scheduler` holds the running flag and the messages sent so far;
- `MemoryStore.Memory` holds the memory files.

Loops in the source are methods with loop invariants. Each is proved equal to a
specification function:
- `JobStore.GetDue` is proved equal to `DueJobs`;
- `AgentRunner.RunFrom` is proved equal to `Run`;
- `AgentRunner.BuildRequest` is proved equal to `ProjectAll`;
- `AgentRunner.CallTools` is proved equal to `RunCalls`;
- `Scheduler.Tick` is proved equal to `Deliveries` plus `AfterFiringAll`.

The lemmas then prove properties of those functions.

## Model

| member | source | states |
|---|---|---|
| CronStore.Validate | src/cron/store.ts:58-65 | a new job is accepted iff exactly one of cron and at is non-blank after trimming; neither gives the "must provide" error, both give the "only one" error |
| CronStore.Created | src/cron/store.ts:66-70 | the stored job keeps user, chat and message, and takes the given id and timestamp. A blank schedule field is stored as absent (corrected behaviour, see Findings) |
| CronStore.CreatedHasOneSchedule | src/cron/store.ts:58-70 | a job that passes validation is stored with exactly one schedule set |
| CronStore.StartOfMinute | src/cron/store.ts:90-91 | the start of the minute is a whole minute, not after `now`, and less than a minute before it |
| CronStore.AtDecides | src/cron/store.ts:95-99 | a job with `at` set is due iff its time parses and is not after now; its cron field is then never looked at |
| CronStore.CronDueAtStartOfMinute | src/cron/store.ts:100-108 | a cron job (no `at`) is due iff the first run after the previous millisecond is exactly the start of the current minute (given that "next" is strictly later) |
| CronStore.CronVerdictPerMinute | src/cron/store.ts:90-105 | for a job without `at`, two ticks in the same minute give the same verdict |
| CronStore.BlankAtSilencesCron | src/cron/store.ts:58-99 | as written: a job with a valid cron and a whitespace-only `at` passes validation, yet stored verbatim (`CreatedAsWritten`, the `{...job}` of line 66) it is never due |
| CronStore.ValidCronJobFiresByCron | src/cron/store.ts:95-105 | corrected: a validated cron job is due exactly when its cron schedule says so |
| CronStore.Filter | src/cron/store.ts:50 | `filter`: the filtered list holds exactly the jobs that satisfy the predicate |
| CronStore.FilterIsSubsequence | src/cron/store.ts:50 | filtering keeps the jobs in their stored order |
| CronStore.FilterCounts | src/cron/store.ts:50 | `filter` keeps every copy: each job occurs as often as in the input when it satisfies the predicate, and not at all otherwise |
| CronStore.RemoveAt | src/cron/store.ts:81 | `splice(idx, 1)` keeps the jobs before `idx` and shifts the later ones down by one |
| CronStore.RemoveAtIsSubsequence | src/cron/store.ts:81 | removing one job keeps the others in order |
| CronStore.FindIndex | src/cron/store.ts:79 | the found index is the first job with that id (and that user, when one is given); none means no job matches |
| CronStore.AfterRemoveIsSubsequence | src/cron/store.ts:77-84 | a removal drops exactly one job when one matches and none otherwise, and keeps the order |
| CronStore.AddKeepsIdsDistinct | src/cron/store.ts:66-71 | appending a job with a fresh id keeps ids distinct |
| CronStore.RemoveKeepsIdsDistinct | src/cron/store.ts:77-84 | removing a job keeps ids distinct |
| CronStore.JobStore.constructor | src/cron/store.ts:29-35 | the store starts from the loaded job list |
| CronStore.JobStore.List | src/cron/store.ts:47-53 | with a non-empty user id, exactly that user's jobs in stored order, each as many times as it is stored; otherwise all jobs |
| CronStore.JobStore.Add | src/cron/store.ts:56-74 | on a validation error the store is unchanged and the error is returned; otherwise the created job (`Created`, the corrected form, see Findings) is appended and returned |
| CronStore.JobStore.Remove | src/cron/store.ts:77-84 | returns true iff a matching job exists, and the store becomes the list with the first match removed |
| CronStore.JobStore.RemoveById | src/cron/store.ts:115-122 | returns true iff some job has that id, and removes the first one |
| CronStore.JobStore.GetDue | src/cron/store.ts:87-112 | the loop returns exactly `DueJobs`, the jobs for which `IsDue` holds (characterised by `AtDecides` and `CronDueAtStartOfMinute`), in stored order |
| CronScheduler.Deliveries | src/cron/scheduler.ts:6-26 | one delivery attempt per due job, in order, to the job's chat, with the text "⏰ 提醒：" followed by the message |
| CronScheduler.RemoveByIdLeavesNone | src/cron/store.ts:115-122 | with distinct ids, no job with the removed id is left |
| CronScheduler.RemoveKeepsOthers | src/cron/store.ts:115-122 | removal by id only drops the job with that id |
| CronScheduler.AfterFiringAllShrinks | src/cron/scheduler.ts:16-26 | firing (`AfterFiring` per job, `AfterFiringAll` per tick) never adds a job and keeps ids distinct |
| CronScheduler.FiredOneShotsRemoved | src/cron/scheduler.ts:16-18 | after a tick, no fired one-shot (`at`) job remains |
| CronScheduler.UnfiredJobsSurvive | src/cron/scheduler.ts:16-26 | a job is still stored after firing unless a one-shot job with its id fired, so firing removes only fired one-shot jobs |
| CronScheduler.RecurringJobsSurvive | src/cron/scheduler.ts:16-18 | firing never removes a job without `at` |
| CronScheduler.TickKeepsRecurringJobs | src/cron/scheduler.ts:21-27 | every recurring job is still stored after a tick |
| CronScheduler.Scheduler.constructor | src/cron/scheduler.ts:29 | the scheduler starts stopped, with nothing sent |
| CronScheduler.Scheduler.FireJob | src/cron/scheduler.ts:6-19 | sends one message whether or not delivery succeeds, and then removes the job iff it has `at` |
| CronScheduler.Scheduler.Tick | src/cron/scheduler.ts:21-27 | sends the reminders of exactly the due jobs in order, and removes exactly the fired one-shot jobs |
| CronScheduler.Scheduler.Start | src/cron/scheduler.ts:32-37 | a running scheduler is left alone; a stopped one ticks once and is marked running |
| CronScheduler.Scheduler.Stop | src/cron/scheduler.ts:40-46 | the scheduler is stopped, and nothing more is sent |
| AgentRunner.Project | src/agent/runner.ts:37-55 | assistant turns with tool calls keep text (empty becomes null) and calls; tool turns with a call id become tool results; other tool turns are dropped; every other turn keeps role and content |
| AgentRunner.ProjectAllAppend | src/agent/runner.ts:36-56 | `ProjectAll` projects a history message by message, so it distributes over concatenation |
| AgentRunner.InitialRequest | src/agent/runner.ts:29-32 | the first request is the system prompt followed by the user message |
| AgentRunner.ToolTurnsInCallOrder | src/agent/runner.ts:74-88 | `ToolTurns` gives one tool turn per call, in call order, carrying that call's id, name and result |
| AgentRunner.RoundAppendsCallsThenResults | src/agent/runner.ts:68-88 | `RoundTurns`: a round appends the assistant turn with its calls, then the tool results |
| AgentRunner.RoundRequest | src/agent/runner.ts:36-88 | the next request gains the assistant's calls followed by one tool result per call |
| AgentRunner.RoundRequestShape | src/agent/runner.ts:36-72 | a round's part of the next request is the assistant turn followed by its projected tool turns |
| AgentRunner.ProjectAllTotal | src/agent/runner.ts:36-56 | when every entry of a history is sent, the request has one entry per history entry, each its projection |
| AgentRunner.ToolTurnsRequest | src/agent/runner.ts:47-52 | every tool turn of a round reaches the next request as a tool result |
| AgentRunner.ArgumentsOf | src/agent/runner.ts:75-80 | unparseable arguments become the empty object; otherwise the parsed value is used |
| AgentRunner.RunCallsFirstRejection | src/agent/runner.ts:74-88 | `RunCalls` succeeds iff every tool returns, with the results in call order; otherwise the error is that of the first rejecting call |
| AgentRunner.Run | src/agent/runner.ts:25-92 | at most ten requests; a returned answer is never empty; the first request is the projected history |
| AgentRunner.RunEndsEarly | src/agent/runner.ts:58-83 | a round that ends the run sends one request: a chat rejection is the run's rejection, a reply without tool calls is the answer ("（无回复）" for empty text), and a rejecting tool rejects the run |
| AgentRunner.RunContinues | src/agent/runner.ts:68-89 | a round whose tools all return sends its request, and the run goes on from the history extended by that round |
| AgentRunner.RequestsExtend | src/agent/runner.ts:34-88 | each request extends the one before it: history is only appended to |
| AgentRunner.ExhaustedRounds | src/agent/runner.ts:34-91 | if the model always asks for tools and tools always return, the agent makes exactly ten requests and answers with the round-limit text |
| AgentRunner.BuildRequest | src/agent/runner.ts:35-56 | the loop builds exactly the projected history |
| AgentRunner.CallTools | src/agent/runner.ts:74-88 | the loop runs the calls in order, and stops at the first rejection |
| AgentRunner.RunFrom | src/agent/runner.ts:25-91 | the loop with its early returns gives exactly the outcome of the round-by-round definition, and sends exactly its requests |
| AgentRunner.RunAgent | src/agent/runner.ts:7-32 | the agent starts from the fixed system prompt and the user message |
| AgentRunner.RunCallsStopsAtError | src/agent/runner.ts:74-88 | once a call rejects, later calls change nothing in the outcome |
| ToolRunner.UnknownToolAnswered | src/tools/runner.ts:88-89 | an unknown tool name is answered with "未知工具: " + name, and no handler is called |
| ToolRunner.PropagatesOnlyUnawaitedRejections | src/tools/runner.ts:12-94 | `RunTool`: an error escapes iff an asynchronous handler other than `memory_set` rejects, since those promises are returned without `await`; the `catch` handles everything else, and the synchronous summariser never rejects |
| ToolRunner.MemorySetOutcome | src/tools/runner.ts:49-54 | with a convertible key and value, `memory_set` answers "已保存记忆" once the write resolves, and the `catch` text if the write fails |
| ToolRunner.NullArgumentsCaught | src/tools/runner.ts:12-94 | `Plan`: `null` arguments make the first property read throw, and the error comes back as text |
| ToolRunner.PlanOfReadable | src/tools/runner.ts:12-90 | arguments other than `null` whose coerced properties `String` can convert never throw: `Plan` is the `switch` itself |
| ToolRunner.UnconvertibleArgumentCaught | src/tools/runner.ts:12-94 | a coerced property that `String` rejects (an object with an own `toString` key, or an array holding one) makes its case throw before any handler runs, and `runTool` returns "工具执行异常: Cannot convert object to primitive value" |
| ToolRunner.CoercibleMatchesTable | src/tools/runner.ts:14-86 | the properties each case converts with `String` are exactly those the `Coerced` table lists for it |
| ToolRunner.DispatcherHasEveryCase | src/tools/runner.ts:13-89 | `Plan` answers "未知工具: " + name exactly for the names outside the dispatch table, whatever the arguments: every registered name has a case of its own |
| ToolRunner.NumberOrAsWritten | src/tools/runner.ts:80-86 | `NumberOr`, the research coercion, is `parseInt` of the argument's text, or of `String(d)` when it is absent, with zero and NaN falling back to `d` |
| ToolRunner.AppendFlag | src/tools/runner.ts:27 | with a convertible path and content, append is set iff the argument is `true` or "true" |
| ToolRunner.BrowseActionChecked | src/tools/runner.ts:34-43 | when its four properties convert, an invalid browse action gets the fixed listing text without a browser call; a valid one is passed on with its optional fields |
| ToolRunner.EmailLimitPassesThrough | src/tools/runner.ts:55-58 | a numeric limit reaches the mail handler as `parseInt(String(n))` reads it: `n` itself below 10^21, its leading digit from the exponent form on |
| ToolRunner.EmailIndexPassesThrough | src/tools/runner.ts:59-62 | a numeric index reaches the mail handler as `parseInt(String(n))` reads it: `n` itself below 10^21, its leading digit from the exponent form on |
| ToolRunner.EmailLimitText | src/tools/runner.ts:55-58 | a limit argument is parsed from its text, and NaN falls back to 10 |
| ToolRunner.EmailIndexText | src/tools/runner.ts:59-62 | an index argument is parsed from its text, and NaN falls back to 0 |
| ToolRunner.EmailLimitNaNDefault | src/tools/runner.ts:55-58 | a present, convertible limit whose text is not a number gives 10 |
| ToolRunner.EmailIndexNaNDefault | src/tools/runner.ts:59-62 | a present, convertible index whose text is not a number gives 0 |
| ToolRunner.SummarizeAnswered | src/tools/runner.ts:83-86 | `research_summarize` with convertible arguments always answers with `Research.Summarize` of the `text` argument and the coerced `max_length`, whatever the handlers do |
| ToolRunner.ResearchNumbersPassThrough | src/tools/runner.ts:78-87 | numeric counts pass through as `parseInt(String(n))` reads them, and zero falls back to 5 or 500 |
| ToolRunner.EmptyArgumentFileDefaults | src/tools/runner.ts:14-43 | without arguments: empty strings, `undefined` optionals, "utf8", no append, and browse refused |
| ToolRunner.EmptyArgumentServiceDefaults | src/tools/runner.ts:45-77 | without arguments, the memory, send and travel tools get empty or `undefined` values; memory always uses the caller's user |
| ToolRunner.EmptyArgumentMailDefaults | src/tools/runner.ts:55-62 | without arguments, limit 10 and index 0 |
| ToolRunner.EmptyArgumentSearchDefaults | src/tools/runner.ts:78-81 | without arguments, the search asks for 5 results |
| ToolRunner.EmptyArgumentSummarizeDefaults | src/tools/runner.ts:83-86 | without arguments, the summary limit is 500 |
| ToolRunner.RegistryMatchesDispatcher | src/tools/runner.ts:13-89 | every registered tool has a dispatcher case, and every case is registered |
| ToolDefinitions.RegistryNamesDistinct | src/tools/definitions.ts:3-175 | fourteen tools with pairwise distinct names |
| ToolDefinitions.SchemasAreObjects | src/tools/definitions.ts:3-175 | every parameter schema is an object schema |
| ToolDefinitions.PropertiesAreStrings | src/tools/definitions.ts:3-175 | every declared property is typed "string" |
| ToolDefinitions.RequiredAreDeclared | src/tools/definitions.ts:3-175 | every required name is a declared property of its tool |
| ToolDefinitions.NoRequiredList | src/tools/definitions.ts:67-150 | exactly memory_get, email_list and travel_checkin have no required list |
| ToolDefinitions.NoReminderTools | src/tools/definitions.ts:3-175 | no tool name starts with "reminder_" |
| MemoryStore.Sanitize | src/memory/store.ts:14 | the sanitised id is only `[A-Za-z0-9_-]`, and has the id's UTF-16 length (an astral character becomes "__") |
| MemoryStore.SanitizeConcat | src/memory/store.ts:14 | the replacement works character by character: sanitising distributes over concatenation |
| MemoryStore.SanitizeEachChar | src/memory/store.ts:14 | for an id without astral characters, each safe character is kept in place and every other one becomes "_" |
| MemoryStore.SanitizeAstral | src/memory/store.ts:14 | an astral character, two UTF-16 units that each fail the class, becomes "__" |
| MemoryStore.SanitizeKeepsSafe | src/memory/store.ts:14 | a safe id is kept as it is |
| MemoryStore.SanitizeIdempotent | src/memory/store.ts:14 | sanitising twice is sanitising once |
| MemoryStore.UserPathShared | src/memory/store.ts:13-16 | `UserPath`: two users share a file iff their sanitised ids are equal |
| MemoryStore.Load | src/memory/store.ts:21-27 | a readable file gives its data; a missing or invalid one gives the empty map |
| MemoryStore.Reply | src/memory/store.ts:28-32 | no key or "" dumps the map, or "（暂无记忆）" when empty; a key gives its value, or "（无此键）" |
| MemoryStore.Stored | src/memory/store.ts:38-46 | a set writes only the user's file, which then exists and parses |
| MemoryStore.SetThenGet | src/memory/store.ts:28-45 | reading a non-empty key right after setting it gives the value set |
| MemoryStore.SetChangesOnlyKey | src/memory/store.ts:45 | a set changes only that key of that user, and leaves other files alone |
| MemoryStore.SameSanitisedSameMemory | src/memory/store.ts:13-46 | users with equal sanitised ids read and write the same memory |
| MemoryStore.Memory.Get | src/memory/store.ts:18-33 | a non-empty key gives its stored value or "（无此键）"; no key or "" gives the stringified map, or "（暂无记忆）" when the file is empty or missing |
| MemoryStore.Memory.Set | src/memory/store.ts:35-47 | the files become `Stored(...)`, and the key then reads back the value |
| LarkWebhook.HandleWebhookBody | src/lark/webhook.ts:39-72 | unparseable bodies are ignored; a challenge comes only from a url_verification body; an event comes from an event_callback whose type includes "im.message.receive", and carries the message's chat id, its message id (or ""), its parsed content, and the sender's user id |
| LarkWebhook.ContentOf | src/lark/webhook.ts:66 | the content is trimmed; it is "" when the message's content is falsy, and `ParseMessageContent` of the content when that is a truthy string |
| LarkWebhook.ArrayContentParsed | src/lark/webhook.ts:66 | array content is parsed through `String`, so `["{\"text\":\"hi\"}"]` gives "hi" |
| LarkWebhook.NonStringContentThrows | src/lark/webhook.ts:66 | truthy non-string content that `String` rejects, or whose `String` form has no string `text`, makes `content.trim` throw |
| LarkWebhook.NotAMessageIgnored | src/lark/webhook.ts:59-62 | a body that is not an event_callback, has no event, has a type without "im.message.receive", or has no message, is ignored |
| LarkWebhook.TextMessageDelivered | src/lark/webhook.ts:64-71 | a message with a truthy chat id and string content that parses to non-empty text is delivered as exactly that event, with `ParseMessageContent` of the content as its text |
| LarkWebhook.MessageDelivered | src/lark/webhook.ts:59-71 | a message body gives the event with its chat id, message id, content and user id when the chat id is truthy and the content non-empty, is ignored otherwise, and throws when content parsing throws |
| LarkWebhook.ChallengeFirst | src/lark/webhook.ts:47-49 | a url_verification body with a challenge is answered with that challenge, before anything else is checked |
| LarkWebhook.EncryptedIgnored | src/lark/webhook.ts:53-57 | an encrypted body is ignored when a key is configured |
| LarkWebhook.UserIdFallback | src/lark/webhook.ts:67-68 | `SenderId` prefers the sender's `sender_id` over the message's; `UserIdOf` is a string `user_id` or "" |
| LarkClient.ParseMessageContent | src/lark/client.ts:50-57 | the text is always trimmed |
| LarkClient.TextFieldUsed | src/lark/client.ts:52-53 | `TextOf`: a JSON object with a string `text` gives that text, trimmed |
| LarkClient.ContentFallback | src/lark/client.ts:53-56 | unparseable content, or content without a string `text`, gives the raw content trimmed |
| LarkClient.PlainTextUnchanged | src/lark/client.ts:54-55 | an already-trimmed non-JSON text comes back unchanged |
| Research.SearchCount | src/tools/research.ts:8 | the count is within 1..20; 0 gives 5; 1..20 pass; negatives give 1; above 20 gives 20 below 10^21, and the leading digit of the exponent form from 10^21 on |
| Research.SummaryLimit | src/tools/research.ts:37 | the limit is within 100..2000; 0 gives 500; 100..2000 pass; other values below 100 give 100; above 2000 gives 2000 below 10^21, and 100 from 10^21 on (the exponent form parses to one digit) |
| Research.Summarize | src/tools/research.ts:36-41 | the summary is normalised; it is the cleaned text when short enough, otherwise its first `max` characters followed by "..." |
| Research.TruncatedIsNormalized | src/tools/research.ts:40 | truncating and appending "..." keeps the text normalised |
| Research.SummarizeIdempotent | src/tools/research.ts:36-41 | summarising a summary with the same limit changes nothing |
| Research.ShortNormalizedUnchanged | src/tools/research.ts:38-39 | a normalised text within the limit is returned unchanged |
| JsText.Trim | src/lark/client.ts:53 | `trim` returns the input without its leading and trailing whitespace: a slice with only whitespace outside it, no whitespace at either end, empty iff the text is all whitespace |
| JsText.TrimKeepsNonSpace | src/lark/client.ts:53 | trimming keeps every character that is not whitespace, in order |
| JsText.CollapseKeepsNonSpace | src/tools/research.ts:38 | `Collapse`, `replace(/\s+/g, " ")`, keeps every character that is not whitespace, in order |
| JsText.CollapseRun | src/tools/research.ts:38 | a non-empty whitespace run becomes one space |
| JsText.CollapseChar | src/tools/research.ts:38 | a character that is not whitespace is kept as it is |
| JsText.CollapseConcat | src/tools/research.ts:38 | collapsing works run by run: pieces that do not split a whitespace run collapse separately |
| JsText.CollapseTrim | src/tools/research.ts:38 | collapsing whitespace runs and trimming gives normalised text, never longer |
| JsText.CollapseTrimKeepsNonSpace | src/tools/research.ts:38 | collapsing and trimming keeps every character that is not whitespace, in order |
| JsText.NormalizedIsFixpoint | src/tools/research.ts:38 | normalised text is a fixed point of collapsing and trimming |
| JsText.ParseInt | src/tools/runner.ts:56 | `parseInt` is NaN iff no digits follow the whitespace and sign |
| JsText.ParseIntOfIntToString | src/tools/research.ts:8 | `parseInt` of the plain decimal digits of `n` is `n` (the form `String(n)` takes for -10^21 < n < 10^21) |
| JsText.ParsedOrOfIntToString | src/tools/research.ts:37 | `parseInt` of the plain decimal digits of `n`, with the fallback `d`, is `n`, and `d` only for zero |
| JsText.NumberToString | src/tools/research.ts:8 | `String(n)`: plain decimal digits for -10^21 < n < 10^21, the exponent form ("3e+21") from there on |
| JsText.ParseIntOfNumberToString | src/tools/research.ts:8 | `parseInt(String(n), 10)` is `n` below 10^21 and the exponent form's leading digit (signed) from there on; it is zero only for zero |
| JsText.ParsedOrOfNumberToString | src/tools/research.ts:37 | `parseInt(String(n), 10)` with the fallback `d` is what `parseInt` reads, and `d` only for zero |
| Json.Present | src/tools/runner.ts:16 | `args.x != null` holds iff the property exists and is not null |

## Left out

- File I/O: `readFile`, `writeFile`, `mkdir`, the JSON files themselves and their
  formatting. The job list and the memory files are class fields. `JSON.stringify` is an
  oracle.
- Unreadable stores: a job file whose `jobs` is not an array is read as an empty list.
  The model starts from a given list.
- Timers: `setInterval`, the un-awaited first `tick()` in `startScheduler`, and ticks that
  overlap one another. `Scheduler.Start` runs its first tick to completion, and the
  interval is only the running flag.
- cron-parser and `new Date(...)`. Both are oracle parameters: "next run after" and ISO
  parsing. `setSeconds(0, 0)` works in local time; the model takes whole UTC minutes.
- JobStore.Add: `randomUUID` and `new Date().toISOString()` are parameters. Freshness of
  the id is a hypothesis of `AddKeepsIdsDistinct`, not a fact the model proves.
- JobStore.Add: stores the corrected `Created`, where a whitespace-only schedule field is
  absent, not the verbatim `{...job}` of src/cron/store.ts:66-70. The as-written job is
  `CreatedAsWritten`, and `BlankAtSilencesCron` shows what storing it does (see Findings).
- JsText.ParseInt: the result is the exact integer the digits spell. `parseInt` returns a
  double, so past 2^53 its digits are rounded, and about 309 digits or more give
  `Infinity`. Fractions are never produced, since the digits stop at the first non-digit.
- JsText.NumberToString: a JavaScript number is modelled by the integer its shortest
  decimal form denotes. Fractional numbers, and the rounding of integers past 2^53, are
  not modelled.
- Scheduler.FireJob: a failed delivery is recorded, not thrown. The `console.error` and
  the error from `cronRemoveById` are not modelled. `sendMessage`'s `receiveIdType` is
  always "chat_id" and is not carried.
- The LLM and the asynchronous tool handlers are pure oracles; `research_summarize` is
  synchronous and is computed by `Research.Summarize`. Tool side effects on files, the shell,
  the browser and mail are not modelled. The `tools` and `maxTokens` arguments of the
  chat call are fixed in the source and are not carried.
- AgentRunner.RunFrom takes the system prompt as a parameter so that proofs do not carry
  the long literal. `RunAgent` passes the fixed prompt.
- The system prompt names reminder tools (`reminder_add` and others) that are not in the
  registry. `NoReminderTools` records that; the model does not invent them.
- Research.Summarize: lengths are counted in Unicode scalar values, not UTF-16 code
  units, so text with astral characters may be cut at a different point.
- researchSearch's network and browser paths are left out. Only its count clamp
  (`SearchCount`) is modelled.
- MemoryStore.Load: a memory file that parses to a non-object, and keys such as
  `__proto__` that reach the object prototype, are not modelled. A parsed file is a
  string map.
- MemoryStore.SetThenGet: requires a non-empty key, because `memoryGet` with the key ""
  dumps the whole map instead.
- LarkWebhook.HandleWebhookBody: `config.lark.encryptKey` is a parameter, and the
  `console.warn` is left out.
- Logging: every `console` call.

## Findings

| source | as written | input that shows it | evidently intended | confidence | as-written member | corrected member |
|---|---|---|---|---|---|---|
| src/cron/store.ts:58-98 | `cronAdd` validates the trimmed `cron`/`at` but stores the job verbatim, and `cronGetDue` tests `job.at` by raw truthiness | `{cron: "0 9 * * *", at: " "}` passes validation (only cron is non-blank). It is stored with `at = " "`, which is truthy, and `new Date(" ")` is NaN, so the job is never due and its cron is never consulted | the accepted job fires by its cron schedule, with a blank `at` stored as absent | medium, not executed | CronStore.BlankAtSilencesCron | CronStore.Created |
