# AI VTuber core, modelled in Dafny

This project models the core of the AI VTuber companion (`ai-vtuber-core`). The core has five parts:

- the retry executor with its failure statistics;
- the publish/subscribe event bus;
- the LLM front end: client selection, the outbound request, keyword emotion detection, the 20-message conversation window and the canned reply on failure;
- the capacity-bounded conversation memory;
- the persona registry with its dictionary reader and writer.

It also models the two example modules: the privacy manager (encryption, audit log, plugin permissions, anonymized analytics) and the fallback chains built on the example retry executor.

One Dafny module stands for each Python file:

| Dafny file | module | Python file |
|---|---|---|
| `error_handler.dfy` | `ErrorHandling` | `src/error/error_handler.py` |
| `error_handler_example.dfy` | `ErrorHandlerExample` | `examples/error_handler_example.py` |
| `event_bus.dfy` | `Events` | `src/events/event_bus.py` |
| `llm_module.dfy` | `Llm` | `src/llm/llm_module.py` |
| `memory_system.dfy` | `Memory` | `src/memory/memory_system.py` |
| `persona_engine.dfy` | `Persona` | `src/persona/persona_engine.py` |
| `privacy_manager_example.dfy` | `PrivacyExample` | `examples/privacy_manager_example.py` |

Small helper modules model the Python built-ins the core relies on:

- `Wrappers`: `Option`.
- `Seqs`: the slice `s[-n:]` (including `-0 == 0`) and `list.remove`.
- `Strings`: ASCII `str.lower` and the substring test `in`.
- `Values`: JSON-like values.
- `Chat`: `{"role", "content"}` messages.
- `Utf8`: `str.encode` and `bytes.decode`.

Objects whose fields the Python code updates in place are classes with `modifies` clauses: `ErrorHandler`, `EventBus`, `LlmModule`, `MemorySystem`, `PersonaEngine`, `PrivacyManager`, `PermissionController` and `AnalyticsManager`. Each loop of the source is a method with loop invariants proved against a specification function:

- the retry loops follow `ErrorHandling.Retry`;
- the dispatch loops follow `Events.PublishTrace` and `Events.SyncHandlers`;
- the Gemini prompt loop follows `Llm.GeminiPromptText`;
- the persona loading loop follows `Persona.RegisteredAll`;
- the anonymizing loop follows `PrivacyExample.Anonymized`.

Everything outside the program becomes a parameter:

- A unit of work, a provider API, a loader or an event handler is an oracle indexed by call number. `op(i)` is what the i-th call returns or raises.
- A deadline breach is `DeadlineExceeded`.
- An event handler's behaviour is `(handler, event) -> Option<error message>`.
- A cipher is a function on bytes.
- A SHA-256 hex digest is a function `digest`.
- The current time is a string `now`.
- `random.choice` is an index `pick`.
- `input()` is the answer string.
- Sleeping is recorded as the trace of delays `waits`.

## Model

| member | source | states |
|---|---|---|
| ErrorHandling.TypeValueInjective | ai-vtuber-core/src/error/error_handler.py:20-31 | distinct error kinds have distinct string values, so `get_error_stats` loses no key |
| ErrorHandling.Settled | ai-vtuber-core/src/error/error_handler.py:84-100 | an attempt that completes keeps its outcome, and one that overruns the deadline raises `TimeoutError` |
| ErrorHandling.FirstReturned | ai-vtuber-core/src/error/error_handler.py:156-167 | the index of the first call that returns: every earlier call raised, and the call at that index returned (or all `n` raised) |
| ErrorHandling.FirstReturnedSkip | ai-vtuber-core/src/error/error_handler.py:156-171 | skipping calls known to raise does not move the first success |
| ErrorHandling.RunFrom | ai-vtuber-core/src/error/error_handler.py:119-128 | the loop from any iteration: the fallback is only called when one was given, and its outcome is then the result |
| ErrorHandling.Retry | ai-vtuber-core/src/error/error_handler.py:78-131 | one executor call makes at most `max_retries` attempts; a fallback that was called gives the result, and a value returned without the fallback is the last attempt's |
| ErrorHandling.RunFromStep | ai-vtuber-core/src/error/error_handler.py:169-180 | a failed attempt within the budget continues with the next attempt, sleeping and multiplying the delay unless it was the last attempt |
| ErrorHandling.RunFromClosedForm | ai-vtuber-core/src/error/error_handler.py:153-195 | from any reachable iteration, the loop makes calls up to and including the first success. It returns that call's outcome, or the exhausted-budget outcome. The sleeps are `retry_delay * backoff_multiplier^j`, one per failure except after the last attempt |
| ErrorHandling.WaitsExtend | ai-vtuber-core/src/error/error_handler.py:177-180 | one more sleep of the scheduled length keeps the schedule, and `delay *= backoff_multiplier` yields the next scheduled delay |
| ErrorHandling.RetryStopsAtFirstSuccess | ai-vtuber-core/src/error/error_handler.py:156-167 | a call that succeeds within the budget is returned at once: `failures + 1` calls, no fallback |
| ErrorHandling.RetryExhaustion | ai-vtuber-core/src/error/error_handler.py:182-195 | when every call fails there are exactly `max_retries` calls. The fallback then runs once and its value or exception is the result. Without a fallback the last error is re-raised, or a `TypeError` when no call was made |
| ErrorHandling.RetryAttemptBound | ai-vtuber-core/src/error/error_handler.py:156 | at most `max_retries` calls, and at least one when the budget is positive |
| ErrorHandling.RetryWaitSchedule | ai-vtuber-core/src/error/error_handler.py:176-180 | there are at most `max_retries - 1` sleeps and fewer sleeps than calls, and sleep j lasts `retry_delay * backoff_multiplier^j` |
| ErrorHandling.PowAtLeastOne | ai-vtuber-core/src/error/error_handler.py:113 | a multiplier of at least 1 never shrinks the delay factor |
| ErrorHandling.DelayNondecreasing | ai-vtuber-core/src/error/error_handler.py:110-113 | with a non-negative first delay and a multiplier of at least 1, each sleep lasts at least as long as the one before |
| ErrorHandling.CountsStep | ai-vtuber-core/src/error/error_handler.py:106-107 | each failure adds one to `error_counts.get(t, 0)` |
| ErrorHandling.CountsSucceed | ai-vtuber-core/src/error/error_handler.py:92-94 | a success resets the counter to 0 only when the key is already present |
| ErrorHandling.CountsAfterRetry | ai-vtuber-core/src/error/error_handler.py:92-107 | one executor call changes only its own kind's counter: it goes up by the number of failures, or becomes 0 after a success, and an absent key stays absent when nothing failed |
| ErrorHandling.ErrorHandler.constructor | ai-vtuber-core/src/error/error_handler.py:48-56 | a missing configuration takes the defaults 3 / 1.0 / 2.0 / 30.0, and the statistics start empty |
| ErrorHandling.ErrorHandler.HandleWithRetryAsync | ai-vtuber-core/src/error/error_handler.py:58-131 | the async executor equals `Retry` over the outcomes settled under the deadline (a timeout counts as one more failure), and the statistics become `CountsAfterRetry` |
| ErrorHandling.ErrorHandler.HandleWithRetrySync | ai-vtuber-core/src/error/error_handler.py:133-195 | the loop's result, call count and sleeps equal `Retry`, and the statistics equal `CountsAfterRetry` |
| ErrorHandling.ErrorHandler.GetErrorStats | ai-vtuber-core/src/error/error_handler.py:197-199 | the statistics keyed by the enum values, one entry per counted kind, with the same counts |
| ErrorHandling.ErrorHandler.ResetStats | ai-vtuber-core/src/error/error_handler.py:201-203 | every counter is dropped |
| ErrorHandlerExample.ExampleErrorHandler.constructor | ai-vtuber-core/examples/error_handler_example.py:27-37 | absent configuration keys take 3 attempts, a 1.0 s first delay and a multiplier of 2.0 |
| ErrorHandlerExample.ExampleErrorHandler.Config | ai-vtuber-core/examples/error_handler_example.py:35-37 | the example's policy is an `ErrorConfig` with the same three numbers |
| ErrorHandlerExample.ExampleErrorHandler.HandleWithRetry | ai-vtuber-core/examples/error_handler_example.py:39-89 | the loop (sleeping inside the `except`) follows the same `Retry` rules: the first success is returned after `failures + 1` calls, or the fallback or last error ends an exhausted budget |
| ErrorHandlerExample.SttErrorHandler.TranscribeWithFallback | ai-vtuber-core/examples/error_handler_example.py:98-118 | never raises: the first transcript, or `""` (text input mode) once every call failed |
| ErrorHandlerExample.LlmErrorHandler.GenerateWithFallback | ai-vtuber-core/examples/error_handler_example.py:128-170 | never raises. The order is: primary model with retries, then the fallback model once, then the cache, then the apology |
| ErrorHandlerExample.AssetErrorHandler.FallbackToDefault | ai-vtuber-core/examples/error_handler_example.py:200-205 | loads `default_avatar.vrm` or `default_idle.anim` for those two types, and raises `FileNotFoundError` for any other type |
| ErrorHandlerExample.AssetErrorHandler.LoadAssetWithFallback | ai-vtuber-core/examples/error_handler_example.py:183-212 | the first successful load of the asset, or the default asset's load once every call failed |
| Events.HandlersFor | ai-vtuber-core/src/events/event_bus.py:126 | `subscribers.get(kind, [])` |
| Events.ErrorEvent | ai-vtuber-core/src/events/event_bus.py:138-146 | a `SYSTEM_ERROR` event from `event_bus` carrying the message, the original event's type value and the handler's name |
| Events.Invocations | ai-vtuber-core/src/events/event_bus.py:129-134 | one call per handler, in order |
| Events.Step | ai-vtuber-core/src/events/event_bus.py:130-149 | one handler turn calls the handler first, then records exactly one error event when the handler raised on a non-error event, and none otherwise |
| Events.Deliver | ai-vtuber-core/src/events/event_bus.py:129-149 | the dispatch loop makes at least one call per handler and records at most one event per handler, each of them a `SYSTEM_ERROR` event |
| Events.PublishTrace | ai-vtuber-core/src/events/event_bus.py:111-149 | a publication records the event first, then at most one `SYSTEM_ERROR` event per subscribed handler |
| Events.DeliverPrefix | ai-vtuber-core/src/events/event_bus.py:129-149 | the dispatch of one more handler appends that handler's step |
| Events.DeliverStep | ai-vtuber-core/src/events/event_bus.py:129-149 | the dispatch of one more handler, as the loop of `publish` accumulates calls and recorded events |
| Events.DeliverSystemError | ai-vtuber-core/src/events/event_bus.py:147-149 | handing a `SYSTEM_ERROR` event to its handlers calls each of them and publishes nothing more, whatever they raise |
| Events.ErrorEventsDoNotCascade | ai-vtuber-core/src/events/event_bus.py:147-149 | publishing an error event records it and calls its handlers once each, with no further publication |
| Events.CallsOf | ai-vtuber-core/src/events/event_bus.py:129-134 | the calls that hand over a given event, in order |
| Events.CallsOfAppend | ai-vtuber-core/src/events/event_bus.py:129-134 | picking the calls of an event distributes over concatenation |
| Events.CallsOfNone | ai-vtuber-core/src/events/event_bus.py:138-149 | nested calls with another event contribute no call of this event |
| Events.DeliverCallsInOrder | ai-vtuber-core/src/events/event_bus.py:129-149 | every subscribed handler is called with the event exactly once, in subscription order, and a handler that raises does not stop later ones |
| Events.StepCalls | ai-vtuber-core/src/events/event_bus.py:130-149 | one step hands the event to its handler once, and the nested publication hands over only the error event |
| Events.PublishTraceCalls | ai-vtuber-core/src/events/event_bus.py:118-129 | the event is recorded before any handler runs and adds no call |
| Events.PublishCallsInOrder | ai-vtuber-core/src/events/event_bus.py:111-149 | one `publish` calls each of the kind's handlers with the event exactly once, in order |
| Events.ErrorEvents | ai-vtuber-core/src/events/event_bus.py:135-149 | at most one `SYSTEM_ERROR` event per handler |
| Events.DeliverPublished | ai-vtuber-core/src/events/event_bus.py:135-149 | dispatching a non-error event records exactly the error events of the handlers that raised, in order |
| Events.PublishedEvents | ai-vtuber-core/src/events/event_bus.py:111-149 | a publication records the event and then one error event per failing handler; an error event records only itself |
| Events.Record | ai-vtuber-core/src/events/event_bus.py:119-121 | appending then `pop(0)` over the limit keeps the history within `max_history` |
| Events.RecordAll | ai-vtuber-core/src/events/event_bus.py:119-121 | recording several events keeps the bound |
| Events.RecordAllAppend | ai-vtuber-core/src/events/event_bus.py:119-121 | recording two batches is recording their concatenation |
| Events.RecordKeepsLast | ai-vtuber-core/src/events/event_bus.py:119-121 | recording into the last `max_history` events of a list gives the last `max_history` of the extended list |
| Events.RecordAllKeepsLast | ai-vtuber-core/src/events/event_bus.py:119-121 | with a positive limit the history is the last `max_history` events ever recorded, oldest first |
| Events.OfKind | ai-vtuber-core/src/events/event_bus.py:189-190 | the filtered history holds exactly the events of the kind asked for (each one from the history, every such event in it), and all events when no kind is given |
| Events.OfKindSnoc | ai-vtuber-core/src/events/event_bus.py:189-190 | one more event joins the filtered history at its end exactly when it is of the kind, so the filter keeps log order |
| Events.SyncHandlers | ai-vtuber-core/src/events/event_bus.py:169-174 | the handlers `publish_sync` calls: exactly the non-coroutine ones, in order |
| Events.SyncStep | ai-vtuber-core/src/events/event_bus.py:169-174 | one more turn of the sync loop calls the handler unless it is async |
| Events.Subscribed | ai-vtuber-core/src/events/event_bus.py:84-96 | the kind gains a list if it had none, the handler goes to its end, and every other kind keeps its handlers |
| Events.Unsubscribed | ai-vtuber-core/src/events/event_bus.py:98-109 | exactly one copy of the handler leaves its kind's list (as a multiset), nothing changes when it was absent, and every other kind keeps its handlers |
| Events.RemoveAppended | ai-vtuber-core/src/events/event_bus.py:95-108 | removing the copy just appended restores the list when it held no other copy |
| Events.SubscribeUnsubscribe | ai-vtuber-core/src/events/event_bus.py:84-109 | subscribe then unsubscribe leaves the same handlers, and also the same order when the handler was new |
| Events.EventBus.constructor | ai-vtuber-core/src/events/event_bus.py:71-81 | a default limit of 100, no subscribers, an empty history |
| Events.EventBus.Subscribe | ai-vtuber-core/src/events/event_bus.py:84-96 | the handler goes to the end of its kind's list (duplicates kept); other kinds and the history are untouched |
| Events.EventBus.Unsubscribe | ai-vtuber-core/src/events/event_bus.py:98-109 | the first copy of the handler leaves its kind's list; an absent handler changes nothing |
| Events.EventBus.AddToHistory | ai-vtuber-core/src/events/event_bus.py:118-121 | append, and drop the oldest event when over the limit |
| Events.EventBus.Publish | ai-vtuber-core/src/events/event_bus.py:111-149 | the calls and the new history are those of `PublishTrace`, nested error publications included; the subscriptions are unchanged |
| Events.EventBus.HandleOne | ai-vtuber-core/src/events/event_bus.py:130-149 | one dispatch turn: call the handler, and on failure publish the error event unless the event is already one |
| Events.EventBus.PublishSync | ai-vtuber-core/src/events/event_bus.py:151-176 | the event is recorded and the non-coroutine handlers are called in order; failures publish nothing |
| Events.EventBus.GetHistory | ai-vtuber-core/src/events/event_bus.py:178-192 | the last `limit` events (of the kind, when given), oldest first; `limit == 0` returns all of them, and a negative `limit` drops the first `-limit` of them as `[-limit:]` does |
| Events.EventBus.ClearHistory | ai-vtuber-core/src/events/event_bus.py:194-197 | the history is emptied and the subscriptions are kept |
| Llm.Or | ai-vtuber-core/src/llm/llm_module.py:97 | Python `a or b` on optional strings: truthy exactly when one side is; the first side when it is truthy, the second side otherwise |
| Llm.GeminiModelName | ai-vtuber-core/src/llm/llm_module.py:127 | the name always starts with `models/`, and the prefix is added only when missing |
| Llm.GeminiModelNameIdempotent | ai-vtuber-core/src/llm/llm_module.py:127 | prefixing twice is prefixing once |
| Llm.InitClient | ai-vtuber-core/src/llm/llm_module.py:83-129 | OpenAI gets a client exactly when its key or `OPENAI_API_KEY` is set; Ollama always gets a client on `<base>/v1`. Gemini gets one exactly when one of its three keys is set, with the prefixed model name |
| Llm.DetectEmotion | ai-vtuber-core/src/llm/llm_module.py:345-367 | the result is one of the five emotions |
| Llm.EmotionPriority | ai-vtuber-core/src/llm/llm_module.py:358-365 | happy words win over everything; sad words yield happy or sad; confused words never yield surprised or neutral; surprised words never yield neutral |
| Llm.EmotionCategories | ai-vtuber-core/src/llm/llm_module.py:355-367 | each label exactly: happy when a happy keyword occurs; sad, confused or surprised when a keyword of that list occurs and none of an earlier list does |
| Llm.NeutralIffNoKeyword | ai-vtuber-core/src/llm/llm_module.py:355-367 | neutral exactly when no keyword of any list occurs in the lower-cased text |
| Llm.EmotionIgnoresCase | ai-vtuber-core/src/llm/llm_module.py:355 | the classifier sees only the lower-cased text |
| Llm.EmotionHappyBeatsConfused | ai-vtuber-core/src/llm/llm_module.py:358-363 | one instance of the priority order: the text "Great?" holds both a happy and a confused keyword and is happy |
| Llm.EmotionNoKeyword | ai-vtuber-core/src/llm/llm_module.py:366-367 | one instance of the neutral case: the text "ok" holds no keyword and is neutral |
| Llm.NoOccurrence | ai-vtuber-core/src/llm/llm_module.py:358-362 | a one-character keyword absent from the text does not occur in it |
| Llm.EffectivePrompt | ai-vtuber-core/src/llm/llm_module.py:149 | `system_prompt or config.system_prompt`: an empty override falls back to the configured prompt |
| Llm.BuildMessages | ai-vtuber-core/src/llm/llm_module.py:164-172 | system message first, user message last, and the history in between exactly when it is included |
| Llm.Lines | ai-vtuber-core/src/llm/llm_module.py:265-267 | one `Role: content` line per history message |
| Llm.HistoryLinesSnoc | ai-vtuber-core/src/llm/llm_module.py:265-267 | one more message appends its line |
| Llm.HistoryLinesAppend | ai-vtuber-core/src/llm/llm_module.py:265-267 | the lines of two histories concatenate |
| Llm.GeminiPromptText | ai-vtuber-core/src/llm/llm_module.py:261-269 | the prompt is the system header, then the history lines when included, then the `User: ...\nAssistant:` tail |
| Llm.PromptLineStep | ai-vtuber-core/src/llm/llm_module.py:265-267 | one `+=` of the loop extends the prompt by one history line |
| Llm.BuildGeminiPrompt | ai-vtuber-core/src/llm/llm_module.py:261-269 | the prompt built line by line with `+=` equals `GeminiPromptText` |
| Llm.OutboundRequest | ai-vtuber-core/src/llm/llm_module.py:152-279 | Gemini gets one prompt text that starts with the system header; the other providers get the chat messages (system first, user last). Each carries the configured model, temperature and token limit |
| Llm.ProviderCalls | ai-vtuber-core/src/llm/llm_module.py:175-186 | without a client every attempt raises; with one, each attempt is the provider's answer to the request |
| Llm.Window | ai-vtuber-core/src/llm/llm_module.py:211-217 | after an exchange the history holds at most 20 messages: the last 18 earlier ones, then the user and assistant pair |
| Llm.SuccessResult | ai-vtuber-core/src/llm/llm_module.py:219-226 | the result dictionary's six keys: the response, its detected emotion, the model, the provider, the token count and `fallback_used` false |
| Llm.TokensUsed | ai-vtuber-core/src/llm/llm_module.py:224 | the chat usage total when the reply reports one; 0 without a `usage` attribute and always 0 for Gemini (line 319) |
| Llm.Finish | ai-vtuber-core/src/llm/llm_module.py:205-226 | a reply is answered exactly when its text can be read and is not `None` and, for chat, its `usage` is not `None`. A text that cannot be read raises its own error and a `None` text raises in the classifier, both before the history changes; a `None` usage raises after the exchange joined it |
| Llm.ErrorReport | ai-vtuber-core/src/llm/llm_module.py:240-245 | the `LLM_ERROR` event from `llm_module` carrying `str(e)` and the user message |
| Llm.LlmModule.constructor | ai-vtuber-core/src/llm/llm_module.py:64-81 | the client chosen by `InitClient` and an empty history |
| Llm.LlmModule.GenerateResponse | ai-vtuber-core/src/llm/llm_module.py:131-248 | sends the provider's request through the executor without a fallback; the statistics count the failed attempts, and what comes back is handled as `Respond` states |
| Llm.LlmModule.Respond | ai-vtuber-core/src/llm/llm_module.py:197-248 | a reply handled to the end gives the result dictionary, the window update and an `LLM_RESPONSE` publication. Any exception gives an `LLM_ERROR` publication with `str(e)` and the user message, and the canned reply; the history changes only when the exchange had joined it before the exception |
| Llm.LlmModule.ClearHistory | ai-vtuber-core/src/llm/llm_module.py:369-372 | the history is emptied |
| Llm.LlmModule.GetHistory | ai-vtuber-core/src/llm/llm_module.py:374-376 | a copy equal entry for entry to the history |
| Memory.Appended | ai-vtuber-core/src/memory/memory_system.py:109-129 | with a non-negative capacity the new entry ends the log; a positive capacity bounds the log by `max_entries`, and a capacity of 0 keeps every entry |
| Memory.AppendedAll | ai-vtuber-core/src/memory/memory_system.py:109-129 | adding entries never grows the log by more than their number, and a positive capacity stays a bound |
| Memory.AppendedToRecent | ai-vtuber-core/src/memory/memory_system.py:125-129 | adding to the most recent entries of a log gives the most recent entries of the extended log |
| Memory.AppendedAllKeepsMostRecent | ai-vtuber-core/src/memory/memory_system.py:109-129 | with a positive capacity the log is the last `max_entries` entries ever added, oldest first, and never longer |
| Memory.AppendedAllZeroCapacity | ai-vtuber-core/src/memory/memory_system.py:128-129 | a capacity of 0 keeps every entry, because `memories[-0:]` is the whole list |
| Memory.Matching | ai-vtuber-core/src/memory/memory_system.py:169-173 | an entry of the log is a match exactly when its lower-cased content contains the query |
| Memory.MatchingSnoc | ai-vtuber-core/src/memory/memory_system.py:169-173 | one more entry joins the matches at their end exactly when it matches, so the matches keep log order |
| Memory.AsMessages | ai-vtuber-core/src/memory/memory_system.py:156 | one `{"role", "content"}` message per entry, in order |
| Memory.Loaded | ai-vtuber-core/src/memory/memory_system.py:209-245 | a missing file or a failed decryption loads nothing |
| Memory.MemorySystem.constructor | ai-vtuber-core/src/memory/memory_system.py:58-84 | an empty log; encryption stays on only when it is configured and the cipher library is present |
| Memory.MemorySystem.AddMemory | ai-vtuber-core/src/memory/memory_system.py:109-131 | the entry (metadata `{}` when none is given) is appended, and the log is trimmed to `memories[-max_entries:]` when over |
| Memory.MemorySystem.GetRecentMemories | ai-vtuber-core/src/memory/memory_system.py:133-143 | the last `limit` entries in order; `limit == 0` gives all of them |
| Memory.MemorySystem.GetConversationHistory | ai-vtuber-core/src/memory/memory_system.py:145-156 | the recent entries as messages with the same roles and contents, in the same order |
| Memory.MemorySystem.SearchMemories | ai-vtuber-core/src/memory/memory_system.py:158-174 | the last `limit` case-insensitive matches in log order, each one an entry of the log; `limit == 0` gives all matches and a negative `limit` drops the first `-limit` |
| Memory.MemorySystem.ClearMemories | ai-vtuber-core/src/memory/memory_system.py:176-179 | the log is emptied |
| Memory.MemorySystem.GetStats | ai-vtuber-core/src/memory/memory_system.py:247-254 | four keys: the entry count, `max_entries`, whether encryption is on and the storage path |
| Memory.MemorySystem.LoadMemories | ai-vtuber-core/src/memory/memory_system.py:209-245 | the log is replaced only when reading, decrypting, decoding and parsing all succeed; a failed decryption leaves it as it was |
| Persona.NewPersona | ai-vtuber-core/src/persona/persona_engine.py:22-58 | the dataclass's `__post_init__` replaces only `None` lists and maps with their defaults |
| Persona.Minimal | ai-vtuber-core/src/persona/persona_engine.py:22-58 | the dataclass with only its three required fields: the declared system prompt and the two-item greeting and farewell lists |
| Persona.ReadStr | ai-vtuber-core/src/persona/persona_engine.py:68-71 | `data.get(key, default)` for a text field: the default when absent |
| Persona.ReadReal | ai-vtuber-core/src/persona/persona_engine.py:74-78 | a numeric field: the default when absent, and integers accepted as floats |
| Persona.ReadInt | ai-vtuber-core/src/persona/persona_engine.py:76 | an integer field: the default when absent |
| Persona.ReadBool | ai-vtuber-core/src/persona/persona_engine.py:77-79 | a boolean field: the default when absent |
| Persona.ReadStrList | ai-vtuber-core/src/persona/persona_engine.py:72-81 | a list field: the reader's default when absent, and `None` (later the dataclass default) when null |
| Persona.ReadStrMap | ai-vtuber-core/src/persona/persona_engine.py:82 | the emotion map: `{}` when absent, and `None` when null |
| Persona.Section | ai-vtuber-core/src/persona/persona_engine.py:64-65 | a nested section: `{}` when absent |
| Persona.FromDict | ai-vtuber-core/src/persona/persona_engine.py:61-83 | a section that is not a dictionary fails; the name is the stored one or `Unknown`, and the system prompt the stored one or `""` |
| Persona.ToDict | ai-vtuber-core/src/persona/persona_engine.py:85-107 | the eight top-level keys, with `llm_config` and `behavior` as nested dictionaries holding their own keys |
| Persona.ReadStrListWritten | ai-vtuber-core/src/persona/persona_engine.py:80-104 | reading back a written list gives the list |
| Persona.ReadStrMapWritten | ai-vtuber-core/src/persona/persona_engine.py:82-106 | reading back a written map gives the map |
| Persona.LlmSectionRoundTrip | ai-vtuber-core/src/persona/persona_engine.py:73-98 | the `llm_config` fields read back as written |
| Persona.BehaviorSectionRoundTrip | ai-vtuber-core/src/persona/persona_engine.py:77-105 | the `behavior` fields read back as written |
| Persona.TopLevelRoundTrip | ai-vtuber-core/src/persona/persona_engine.py:68-106 | the top-level fields read back as written |
| Persona.FromDictToDict | ai-vtuber-core/src/persona/persona_engine.py:61-107 | `from_dict(to_dict(p)) == p` for every profile |
| Persona.FromDictEmpty | ai-vtuber-core/src/persona/persona_engine.py:61-83 | an empty dictionary gives the reader's defaults: one greeting `Hello!` and one farewell `Goodbye!`, and an empty system prompt |
| Persona.FromDictDefaultsDiffer | ai-vtuber-core/src/persona/persona_engine.py:30-81 | reading an empty dictionary does not give the dataclass defaults: system prompt, greetings and farewells all differ |
| Persona.FromDictNullGreetings | ai-vtuber-core/src/persona/persona_engine.py:53-80 | an explicit null greeting list becomes the dataclass's two default greetings |
| Persona.Parsed | ai-vtuber-core/src/persona/persona_engine.py:151-160 | an unreadable file yields nothing, and a file holding `to_dict(p)` yields `p` |
| Persona.ParsedAll | ai-vtuber-core/src/persona/persona_engine.py:140-147 | the profiles of the files, one per file, in order |
| Persona.Registered | ai-vtuber-core/src/persona/persona_engine.py:160-161 | a parsed profile is stored under its lower-cased name, overwriting only that key; a failed file changes nothing |
| Persona.RegisteredAll | ai-vtuber-core/src/persona/persona_engine.py:133-165 | every registered name was there before or is the lower-cased name of a profile that was read |
| Persona.RegisteredAllStep | ai-vtuber-core/src/persona/persona_engine.py:140-147 | loading one more file registers its profile on top of the earlier ones |
| Persona.RegisteredAllKeepsNames | ai-vtuber-core/src/persona/persona_engine.py:151-165 | loading never removes a registered name |
| Persona.RegisteredAllLastWins | ai-vtuber-core/src/persona/persona_engine.py:160-161 | under a lower-cased name, the last file that parses wins |
| Persona.KeysCount | ai-vtuber-core/src/persona/persona_engine.py:179-181 | a duplicate-free list of exactly the keys has as many entries as there are keys |
| Persona.PersonaEngine.constructor | ai-vtuber-core/src/persona/persona_engine.py:115-125 | an empty registry and no active persona |
| Persona.PersonaEngine.Register | ai-vtuber-core/src/persona/persona_engine.py:161 | the profile is stored under its lower-cased name; a new name goes to the end of the listing order |
| Persona.PersonaEngine.LoadPersonaFile | ai-vtuber-core/src/persona/persona_engine.py:151-165 | a file that parses registers its profile, and a failing one changes nothing |
| Persona.PersonaEngine.LoadPersonas | ai-vtuber-core/src/persona/persona_engine.py:133-149 | loading the files in order registers exactly `RegisteredAll` of their profiles |
| Persona.PersonaEngine.GetPersona | ai-vtuber-core/src/persona/persona_engine.py:167-177 | the lookup is case-insensitive: it finds a profile exactly when the lower-cased name is registered |
| Persona.PersonaEngine.ListPersonas | ai-vtuber-core/src/persona/persona_engine.py:179-181 | exactly the registered names, each once |
| Persona.PersonaEngine.LoadedEventData | ai-vtuber-core/src/persona/persona_engine.py:204-212 | the `PERSONA_LOADED` payload's four keys |
| Persona.PersonaEngine.LoadPersona | ai-vtuber-core/src/persona/persona_engine.py:183-216 | true exactly when the name is registered; then the profile becomes active and is announced from `persona_engine`. Otherwise nothing changes |
| Persona.PersonaEngine.GetGreeting | ai-vtuber-core/src/persona/persona_engine.py:222-228 | "Hello!" without an active persona or greetings; otherwise one of the persona's greetings |
| Persona.PersonaEngine.GetFarewell | ai-vtuber-core/src/persona/persona_engine.py:230-236 | "Goodbye!" without an active persona or farewells; otherwise one of the persona's farewells |
| Persona.PersonaEngine.GreetingsAllReachable | ai-vtuber-core/src/persona/persona_engine.py:227-228 | every greeting of the active persona can be picked |
| Persona.PersonaEngine.MapEmotion | ai-vtuber-core/src/persona/persona_engine.py:238-251 | the active persona's mapping of the emotion, or the emotion itself |
| Utf8.DecodeEncode | ai-vtuber-core/examples/privacy_manager_example.py:53-70 | `data.encode().decode() == data` for every string |
| PrivacyExample.Encrypted | ai-vtuber-core/examples/privacy_manager_example.py:42-57 | with encryption off the result is UTF-8 bytes that decode back to the text, one to four bytes per character |
| PrivacyExample.Decrypted | ai-vtuber-core/examples/privacy_manager_example.py:59-74 | a token the cipher rejects gives failure; bytes that are (or decipher to) the UTF-8 encoding of a text give that text |
| PrivacyExample.EncryptDecryptRoundTrip | ai-vtuber-core/examples/privacy_manager_example.py:42-74 | decrypting encrypted data gives the data back, whenever the cipher's decryption undoes its encryption |
| PrivacyExample.PrivacyManager.constructor | ai-vtuber-core/examples/privacy_manager_example.py:19-29 | encryption and auditing default to on, and the audit log starts empty |
| PrivacyExample.PrivacyManager.LogAudit | ai-vtuber-core/examples/privacy_manager_example.py:76-87 | one entry appended when auditing is on; nothing otherwise |
| PrivacyExample.PrivacyManager.EncryptData | ai-vtuber-core/examples/privacy_manager_example.py:42-57 | the UTF-8 bytes, encrypted when enabled; only encryption is audited, with the text's length |
| PrivacyExample.PrivacyManager.DecryptData | ai-vtuber-core/examples/privacy_manager_example.py:59-74 | the decoded text, or failure where Python raises; only a successful decryption is audited |
| PrivacyExample.Permissions | ai-vtuber-core/examples/privacy_manager_example.py:167-169 | a plugin's granted list, empty when it has none |
| PrivacyExample.PermissionController.constructor | ai-vtuber-core/examples/privacy_manager_example.py:99-107 | no permissions granted |
| PrivacyExample.PermissionController.CheckPermission | ai-vtuber-core/examples/privacy_manager_example.py:156-169 | true exactly when the plugin holds the permission |
| PrivacyExample.PermissionController.RequestPermission | ai-vtuber-core/examples/privacy_manager_example.py:109-154 | an already granted permission is true with no change. Otherwise approval is auto-approve or the answer `y` in any case: it is granted and audited, or the denial is audited. Afterwards the result equals `check_permission`, and other plugins are untouched |
| PrivacyExample.PermissionController.RevokePermission | ai-vtuber-core/examples/privacy_manager_example.py:171-186 | one copy of a held permission is removed and the removal audited; otherwise nothing changes |
| PrivacyExample.GrantThenRevoke | ai-vtuber-core/examples/privacy_manager_example.py:142-181 | granting a new permission and then revoking it restores the plugin's list |
| PrivacyExample.Short | ai-vtuber-core/examples/privacy_manager_example.py:243 | `[:16]`: the first 16 characters, or all of them when fewer |
| PrivacyExample.Anonymized | ai-vtuber-core/examples/privacy_manager_example.py:229-246 | the same keys. `user_id`, `username` and `email` become a hash prefix of at most 16 characters, and every other value is kept |
| PrivacyExample.AnalyticsManager.constructor | ai-vtuber-core/examples/privacy_manager_example.py:194-204 | analytics defaults to off and anonymizing to on |
| PrivacyExample.AnalyticsManager.AnonymizeData | ai-vtuber-core/examples/privacy_manager_example.py:229-246 | the key-by-key loop computes `Anonymized` |
| PrivacyExample.AnalyticsManager.TrackEvent | ai-vtuber-core/examples/privacy_manager_example.py:206-227 | nothing while disabled. Otherwise the (anonymized when so configured) data is sent and the event is audited |
| PrivacyExample.AnalyticsManager.SetEnabled | ai-vtuber-core/examples/privacy_manager_example.py:248-254 | the switch is set and the change audited |

## Left out

- Logging, `print`, directory creation and the global singletons (`get_error_handler`, `get_event_bus`) are left out. The handler, bus and configuration are passed in explicitly.
- Sleeping (`time.sleep`, `asyncio.sleep`) is not performed; the delays are recorded in `waits`. `asyncio.wait_for` becomes an `Attempt` oracle (`DeadlineExceeded` on a breach). Exceptions are values `(class name, str())`.
- A timeout is counted in the same statistics key as any other failure of that call; nothing records timeouts separately.
- The network calls to OpenAI, Ollama and Gemini are an oracle over the request. Missing client packages (the `ImportError` branches) are not modelled.
- `Llm.LlmModule.GenerateResponse`: the Gemini prompt is built once per call, not once per retry. Both give the same text because the history does not change between retries.
- Llm.LlmModule.GenerateResponse: only exceptions are modelled. An `asyncio.CancelledError` (a `BaseException`, not an `Exception`) escapes both `except Exception` clauses of the executor (`src/error/error_handler.py:98-104`) and of `generate_response`, uncounted and unreported; the model has no such outcome.
- Llm.Finish: the reply's fields are read in a fixed order (text, classifier, history, usage); other attribute errors of a malformed reply object, such as an empty `choices` list, are not modelled.
- Event handlers cannot subscribe, unsubscribe or publish from inside a handler, and the timestamp of an event is not modelled.
- JSON and YAML parsing, `save_to_disk`, `_save_persona`, `create_default_personas` and the `_setup_encryption` key file are left out. A loaded file arrives as its already parsed value or bytes, and a parse failure is `None`.
- `Persona.FromDict`: Python's `from_dict` accepts a value of any type for any field. The model reads each field with its declared type and rejects a file whose values have the wrong type (integers are accepted where a float is expected). A null list or map takes the dataclass default as in `__post_init__`.
- `Persona.PersonaEngine.LoadPersonas` is a separate call after construction, not part of the constructor. The directory listing (the `.yaml`, `.yml` and `.json` globs) is the sequence of files passed in.
- `get_current_persona`, `get_audit_log` and the accessors of the example classes are plain field reads.
- Fernet encryption and SHA-256 are oracles (`cipher`, `decipher`, `digest`). `str(value)` of a hashed field is part of `digest`. `input()` is the `answer` parameter. `random.choice` is an index `pick`.
- `str.lower` is modelled on ASCII letters only; non-ASCII case folding is not captured.
- Memory entries loaded from a file are given as parsed `MemoryEntry` values; `MemoryEntry.from_dict(**data)` with unexpected keys is a parse failure.
- `examples/error_handler_example.py` passes a positional argument after the keyword `fallback=` at three call sites, which Python rejects when it compiles the file. The model follows the evident intent: the argument is bound into the operation, and `fallback=` is the fallback.
- The text-to-speech module, the CLI demo and the plugin template are not part of this model.
