# A Dafny model of the screenshot-to-code backend core

This project models the core of the backend of a screenshot-to-code service. It covers five parts:

- **The LLM layer (`backend/llm.py`).**
  - A table of models (`LlmWithConfig`).
  - A handler class that routes a model name to a provider family, builds that provider's request, caches clients per API key and keeps a request history and global debug state.
  - A message pre-processor with per-message error handling.
  - A configuration manager with a bounded first-in-first-out cache and request logging.
  - The top-level `main_llm_processor`, a factory and the legacy entry points.
- **User sessions (`backend/models/session.py`).** A session keeps an append-only action log. The in-memory store maps ids to sessions.
- **Session middleware (`backend/middleware/session.py`).**
  - It finds a request's session id, header first and then cookie.
  - It reuses or creates the session.
  - It decides which session header and cookie the response carries.
- **Data utilities (`backend/utils.py`).** The truncation of long strings for logging, plus small formatters.
- **Eval file matching (`backend/routes/evals.py`).** It pairs generated HTML outputs with input screenshots across one, two or N folders.

How the model is built:

- JSON-like data (the message dicts and lists) is the datatype `JsonValue.Json`. Dicts are sequences of key/value pairs in insertion order, as in Python.
- Python exceptions are values of `JsonValue.PyError`, carried in `Result`s.
- State that the source changes in place is modelled as classes with `modifies` clauses:
  - the module globals (`Globals`);
  - `UniversalLLMHandler`;
  - the configuration manager;
  - `UserSession`;
  - `SessionStore`.
- Loops that accumulate or update state are methods with loop invariants. Each is proved equal to a specification function or a characterising predicate (`Evals.Emits`, `Evals.IsFolderScan`), or states the new state directly (`Sessions.SessionStore.CleanupExpiredSessions`).
- The `for … break` searches (`LlmRegistry.FindByName`, `LlmRegistry.FirstMatching`, `LlmRequests.ScanForImage`, `Evals.FirstMatch`) and the dict loop of `truncate_data_strings` (`DataUtils.Truncate`) are recursive functions.
- The clock, UUIDs, `process_image` and file contents are parameters.

## Model

| member | source | states |
|---|---|---|
| `LlmRegistry.Index` | backend/llm.py:27-42 | every table member has a position in declaration order, the order `for llm in LlmWithConfig` visits |
| `LlmRegistry.NamesDistinct` | backend/llm.py:28-42 | no two table members share a model name |
| `LlmRegistry.FindByName` | backend/llm.py:328-333 | the linear search with `break` yields the first index whose name is equal, or none when no name is equal |
| `LlmRegistry.LegacyLookup` | backend/llm.py:321-336 | the result is the default `gpt-4o-2024-11-20`, or a member whose model name is the argument's name |
| `LlmRegistry.LegacyLookupByName` | backend/llm.py:321-336 | for any argument whose name (`.value` or the string itself) is `name`: a name in the table selects the member carrying it, and any other name falls back to `gpt-4o-2024-11-20` |
| `LlmRegistry.LegacyLookupOfMember` | backend/llm.py:322-336 | an enum member passed directly (its `.value` is the config tuple, not a name) always falls back to the default model |
| `LlmRegistry.FirstMatching` | backend/llm.py:453-457 | the search yields the first name equal to the query or containing it, and none when no name matches |
| `LlmRegistry.MainLookup` | backend/llm.py:453-461 | the selected model is the first matching member in declaration order; with no match it is the default and no member matches |
| `LlmRegistry.MainLookupPrefersEarlierSuperstring` | backend/llm.py:454-457 | `gemini-2.0-flash` selects `gemini-2.0-flash-exp`, an earlier member whose name contains it |
| `LlmRegistry.MainLookupExactName` | backend/llm.py:454-457 | a member's own name selects that member when no earlier member contains it |
| `LlmRequests.Route` | backend/llm.py:69-78 | the prefix tests are taken in order, gpt/o1, claude, gemini, then the `deepseek` substring; each family is selected exactly when the earlier tests fail and its own test holds; otherwise the result is "Unknown model type" |
| `LlmRequests.RouteOfTable` | backend/llm.py:27-42 | every table member is routed to its family, and none to DeepSeek |
| `LlmRequests.RouteClaudeName` | backend/llm.py:71-72 | any name starting with `claude` goes to the Claude handler |
| `LlmRequests.RouteGeminiName` | backend/llm.py:73-74 | any name starting with `gemini` goes to the Gemini handler |
| `LlmRequests.RoutePrefixBeforeSubstring` | backend/llm.py:69-76 | `gpt-deepseek`, a `gpt` name that also contains `deepseek`, is routed to OpenAI |
| `LlmRequests.RouteDeepSeekAnywhere` | backend/llm.py:75-76 | `my-deepseek-model`, with `deepseek` inside and no known prefix, selects DeepSeek |
| `LlmRequests.RouteUnknown` | backend/llm.py:77-78 | `llama-3`, which fits no family, raises "Unknown model type" |
| `LlmRequests.OpenAIParamsFor` | backend/llm.py:105-121 | model, messages and a 600 s timeout are always set; temperature 0 and streaming exactly when the model is not `o1-2024-12-17`; `max_tokens` only for the two named gpt-4o versions; `max_completion_tokens` 20000 only for o1; never both token fields |
| `LlmRequests.OpenAIParamsFollowTable` | backend/llm.py:105-121 | for the OpenAI-family table members, any token field that is set carries the table's max_tokens, and temperature and stream are sent exactly when the table says so |
| `LlmRequests.OpenAIParamsWithoutTokenField` | backend/llm.py:116-121 | three OpenAI table members get no token limit at all, although the table gives them one |
| `LlmRequests.ClaudeMaxTokens` | backend/llm.py:133-137 | the limit is 20000 exactly for `claude-3-7-sonnet-20250219`, and 8192 for every other name |
| `LlmRequests.ClaudeMaxTokensFollowTable` | backend/llm.py:133-137 | the hardcoded Claude limit, 20000 for claude-3-7 and 8192 otherwise, agrees with the table for every Claude member |
| `LlmRequests.ClaudePart` | backend/llm.py:147-157 | a part without `type` raises; a non-image part is kept; an image part succeeds exactly when its URL and `process_image` succeed |
| `LlmRequests.ClaudePartImage` | backend/llm.py:148-157 | a rewritten image part has type `image`, the base64 `source` block built from `process_image`, no `image_url` key, and every other key unchanged |
| `LlmRequests.ClaudeTurn` | backend/llm.py:145-157 | list content is rewritten part by part, and succeeds exactly when every part does; other content is kept; other keys are unchanged |
| `LlmRequests.DictPair` | backend/llm.py:142 | an element of a sequence given to `dict` yields a pair exactly when iterating it gives two items; a list gives its two items; a wrong length is a ValueError naming the element and its length, and a non-iterable element is a TypeError |
| `LlmRequests.DictKey` | backend/llm.py:142 | a key must be a string; a list or dict key raises "unhashable type" |
| `LlmRequests.DictFromSeq` | backend/llm.py:142 | building a dict from pairs keeps keys distinct and never yields more entries than pairs |
| `LlmRequests.ToDict` | backend/llm.py:142 | `dict(message)` copies a dict; an empty string or list gives `{}`; a non-empty string fails on element #0, which has length 1; None, a bool or an int is "not iterable"; any success is a dict with distinct keys |
| `LlmRequests.ToDictPairs` | backend/llm.py:142 | a list of `[key, value]` lists with distinct string keys becomes exactly the dict of those entries, in order |
| `LlmRequests.EmptyTurnLacksContent` | backend/llm.py:142-146 | a turn given as `""` or `[]` becomes `{}`, and its rewrite then raises KeyError `content` |
| `LlmRequests.ClaudeTranslate` | backend/llm.py:139-159 | no messages raise IndexError; a built request is a Claude call whose system prompt is the first message's `content` and whose limit is `ClaudeMaxTokens` of the name |
| `LlmRequests.ClaudeTranslateShape` | backend/llm.py:139-159 | with no messages it raises IndexError; on success the system prompt is the first message's `content`, the turns are the remaining messages, each converted by `dict` and rewritten, and the token limit is `ClaudeMaxTokens`; it succeeds when every turn is a dict whose rewrite succeeds |
| `LlmRequests.ClaudeTurnsHaveNoImageUrl` | backend/llm.py:145-157 | no part of a translated turn is still an `image_url` part |
| `LlmRequests.ClaudePartNotImage` | backend/llm.py:147-156 | a successfully rewritten part is never an `image_url` part |
| `LlmRequests.RewriteParts` | backend/llm.py:147-157 | the in-place loop over the parts agrees with the part-wise rewrite, including the first error |
| `LlmRequests.RewriteTurn` | backend/llm.py:145-157 | the loop body for one message agrees with `ClaudeTurn` |
| `LlmRequests.TranslateForClaude` | backend/llm.py:140-159 | the nested loops agree with `ClaudeTranslate` |
| `LlmRequests.DataUrlParts` | backend/llm.py:173-174 | the only way the split can fail is IndexError |
| `LlmRequests.DataUrlPartsOf` | backend/llm.py:173-174 | for `data:<mime>;<params>,<payload>` the split yields the mime type and the payload up to its next comma |
| `LlmRequests.DataUrlExample` | backend/llm.py:173-174 | `data:image/png;base64,abc` yields `image/png` and `abc` |
| `LlmRequests.GeminiImage` | backend/llm.py:171-177 | a data URL becomes a mime/data entry (and fails when the split does), and any other URL becomes a `uri` entry |
| `LlmRequests.ScanForImage` | backend/llm.py:168-178 | the scan yields at most one image |
| `LlmRequests.ScanFirstImageWins` | backend/llm.py:169-178 | the first `image_url` part decides the result, and the parts after it are never inspected |
| `LlmRequests.ScanNoImage` | backend/llm.py:168-178 | without an `image_url` part the image list stays empty |
| `LlmRequests.GeminiImages` | backend/llm.py:168-178 | no messages raise IndexError; on success the last message is a dict and at most one image is forwarded |
| `LlmRequests.GeminiImagesLastOnly` | backend/llm.py:169 | only the last message is scanned |
| `LlmRequests.DeepSeekRequest` | backend/llm.py:182-194 | the bearer header, the JSON content type, the model `deepseek-chat`, streaming on, the messages unchanged, and the default URL exactly when no truthy base URL is given |
| `LlmRequests.BuildRequest` | backend/llm.py:67-78 | each route builds its family's request; an unknown model raises "Unknown model type" |
| `LlmRequests.ClientsAfter` | backend/llm.py:100-101 | a client is added under the API key only when none is cached and the family caches clients; DeepSeek and unknown models add none |
| `LlmRequests.ClientsNeverReplaced` | backend/llm.py:100-102 | clients already cached are kept, and at most the one key is added |
| `LlmRequests.ClientsSharedAcrossFamilies` | backend/llm.py:100-130 | the cache is keyed by API key alone, so a Claude call after an OpenAI call with the same key reuses the OpenAI client |
| `LlmProcessing.ProcessedItem` | backend/llm.py:253-264 | an item that is not a dict raises; a non-image item is kept unchanged |
| `LlmProcessing.ProcessedImageItem` | backend/llm.py:254-264 | an image item with a data URL gains `processed_image` (mime type and data), and fails exactly when the split does; any other URL leaves the item unchanged; other keys are kept |
| `LlmProcessing.ProcessItems` | backend/llm.py:252-264 | one item comes back for each input item |
| `LlmProcessing.ProcessItemsSucceeds` | backend/llm.py:252-264 | no error exactly when every item succeeds, and then every item is replaced by its processed form |
| `LlmProcessing.ProcessItemsStops` | backend/llm.py:252-264 | on an error, the first failing item gives it; the items before it are processed and it and the later ones are untouched, as an exception leaves a loop that mutates in place |
| `LlmProcessing.ProcessContentItems` | backend/llm.py:253-264 | the in-place loop over the content items agrees with `ProcessItems` |
| `LlmProcessing.ProcessMessage` | backend/llm.py:250-270 | a message whose `content` lookup raises comes back unchanged with that exception; with no custom processor for the model type, a dict message stays a dict |
| `LlmProcessing.ProcessOneMessage` | backend/llm.py:250-268 | the `try` body for one message agrees with its specification function |
| `LlmProcessing.ProcessMessagePlain` | backend/llm.py:252-270 | a message whose content is not a list, with no custom processor, comes back unchanged and without error |
| `LlmProcessing.ProcessMessageItems` | backend/llm.py:252-270 | list content whose items all succeed comes back item by item processed, other keys unchanged |
| `LlmProcessing.ProcessMessageCustom` | backend/llm.py:252-270 | with a custom processor and items that all succeed, the processor receives the message with its items processed; its result is returned, or its exception is reported against that message |
| `LlmProcessing.Outcomes` | backend/llm.py:249-279 | there is one outcome per message, in order |
| `LlmProcessing.ProcessPrefix` | backend/llm.py:248-279 | after `n` messages at most `n` are kept and at most `n` lines logged; without an error handler exactly `n` are kept, and with one nothing is logged |
| `LlmProcessing.ProcessPrefixNext` | backend/llm.py:249-279 | one turn of the outer loop: a success appends the message; a failure with a handler appends nothing; a failure without a handler appends the message and logs its line |
| `LlmProcessing.ProcessPrefixKeepsAll` | backend/llm.py:272-279 | without an error handler every message comes back, in input order, and one line is logged per failure |
| `LlmProcessing.ProcessPrefixWithHandler` | backend/llm.py:272-275 | with an error handler nothing is logged, and exactly the successful messages come back, in order |
| `LlmProcessing.ProcessPrefixLogLines` | backend/llm.py:277 | every logged line is "Error processing message i: e" for a failing message i |
| `LlmProcessing.ProcessAll` | backend/llm.py:231-281 | without an error handler for the model type every message comes back; with one nothing is logged; never more messages or lines than inputs |
| `LlmProcessing.ProcessAllSpec` | backend/llm.py:245-281 | the whole pass, with and without an error handler for the model type |
| `LlmHandler.Globals.constructor` | backend/llm.py:21-24 | the globals start at zero, None and empty |
| `LlmHandler.Globals.Reset` | backend/llm.py:223-228 | `reset_global_state` zeroes the count, clears the last error, the debug messages and the client cache |
| `LlmHandler.Globals.RecordOutcome` | backend/llm.py:86-94 | a finished request adds exactly its debug line; a failure also sets the last error; the request count and client cache stay |
| `LlmHandler.ProcessMessageRounds` | backend/llm.py:248-281 | the loop over the messages returns and logs exactly what `ProcessPrefix` gives for all the outcomes |
| `LlmHandler.ProcessAllMessages` | backend/llm.py:231-281 | returns the processed messages; the debug log gains the header when `debug_mode` is truthy, then the error lines; other globals are unchanged |
| `LlmHandler.HandlerResult` | backend/llm.py:89-95 | a request that could be built yields the stub completion, and one that raised yields "Error occurred" |
| `LlmHandler.UniversalLlmHandler.constructor` | backend/llm.py:52-56 | the handler stores its models and starts with no clients and no history |
| `LlmHandler.UniversalLlmHandler.RegisterClient` | backend/llm.py:100-101 | the client dict changes as `ClientsAfter` says; the history is unchanged |
| `LlmHandler.UniversalLlmHandler.SetupAndStreamResponse` | backend/llm.py:59-95 | the request count goes up by one; clients follow `ClientsAfter`; on success a history entry and "Request N completed successfully" are appended; on an error the last error and "Request N failed: e" are set and the history is unchanged |
| `LlmHandler.CacheLookup` | backend/llm.py:391-404 | after a successful lookup the cache maps `"config_" + name` to the returned value and has grown by at most one entry; `CacheHit`, `CacheMiss` and `CacheStaysValid` give the hit, miss, eviction and StopIteration cases |
| `LlmHandler.CacheHit` | backend/llm.py:393-395 | a cached key returns the cached value and leaves the cache unchanged |
| `LlmHandler.CacheMiss` | backend/llm.py:398-404 | a miss returns `config.get(name, {})`; it evicts the oldest entry when the cache is full and appends the new entry; a full empty cache (size 0) raises StopIteration; a non-dict config raises |
| `LlmHandler.CacheStaysValid` | backend/llm.py:399-403 | keys stay distinct and the cache never exceeds its size |
| `LlmHandler.CacheRemembers` | backend/llm.py:393-404 | right after a lookup a second lookup of the same name hits, whatever the config now says |
| `LlmHandler.ConfigManager.constructor` | backend/llm.py:361-370 | the manager starts with an empty cache, no requests and empty logs |
| `LlmHandler.ConfigManager.GetModelConfig` | backend/llm.py:391-404 | the method agrees with `CacheLookup` on the old cache, and an error leaves the cache as it was |
| `LlmHandler.ConfigManager.LogRequest` | backend/llm.py:406-423 | the count goes up by one; a performance entry is added only when tracking is on; an error entry only for a failure with a non-empty message; the three together are `Logged` of the old ones |
| `LlmHandler.MergeOptions` | backend/llm.py:467 | `{**a, **b}` succeeds exactly when both are dicts |
| `LlmHandler.MergeOptionsGet` | backend/llm.py:467 | a key of the options wins; any other key comes from the model config |
| `LlmHandler.MainLlmProcessor` | backend/llm.py:432-495 | empty messages, key or model name give "Error: Missing required parameters"; otherwise the first exception of the cache lookup and the option merge becomes "Error: " and its text, is logged as a failure with that message and leaves the globals as they were; otherwise the completion is the handler's for the request built from the processed messages for the first matching model, the debug log gains the processing lines and the request's outcome line, and a success is logged; in every case the request, its duration and (when tracking) its performance entry are logged exactly once |
| `LlmHandler.ConfigureAndRun` | backend/llm.py:464-495 | a failed config lookup is the exception's completion, is logged with its message, and leaves cache and globals as they were; a found config goes on to the merge and run |
| `LlmHandler.MergeAndRun` | backend/llm.py:467-495 | a failed merge gives "Error: " and the exception's text, is logged with it, and leaves the globals as they were; a successful one gives the handler's result, the globals `MergedStats` describes, and a success entry; the config cache is untouched |
| `LlmHandler.RunAndLog` | backend/llm.py:470-487 | the handler's result and globals as `RunMerged` gives them, then exactly one success entry in the manager's logs |
| `LlmHandler.RunMerged` | backend/llm.py:467-481 | a fresh handler streams the processed messages; the completion is the handler's result for the request built from them and the merged `base_url`; the debug log gains the header (when the merged `debug` is truthy), the per-message error lines, then the request's outcome line; a failure sets the last error; the count rises by one and the client cache is unchanged |
| `LlmHandler.ZeroSizedCacheFails` | backend/llm.py:399-401 | with `cache_size` 0 the first lookup raises StopIteration, reported as "Error: " |
| `LlmHandler.LegacyStreamOpenAIResponse` | backend/llm.py:316-340 | the legacy entry streams with the looked-up model through a fresh handler: the completion is the handler's result, the count rises by one, the outcome line is appended to the debug log and a failure sets the last error; the client cache is unchanged |
| `LlmHandler.LegacyStreamClaudeResponse` | backend/llm.py:342-344 | as the OpenAI legacy entry with no base URL, with the same debug line and last error |
| `LlmHandler.LegacyStreamGeminiResponse` | backend/llm.py:346-348 | as the OpenAI legacy entry with no base URL, with the same debug line and last error |
| `LlmHandler.LegacyMemberRunsDefault` | backend/llm.py:322-340 | passing a table member directly always builds the default gpt-4o-2024-11-20 OpenAI request |
| `LlmHandler.ClientCacheKeys` | backend/llm.py:306-307 | the factory records one entry per distinct `provider_key[:10]`, and nothing else |
| `LlmHandler.ClientCacheKeysCollide` | backend/llm.py:307 | two keys of one provider that agree in their first ten characters share an entry |
| `LlmHandler.FactoryModels` | backend/llm.py:300-301 | an empty model list becomes gpt-4o-2024-11-20 and claude-3-7; any other list is kept |
| `LlmHandler.CreateLlmHandlerWithDefaults` | backend/llm.py:289-313 | a fresh handler with the models; a truthy `auto_reset` resets the globals, including the entries just added; otherwise the client cache gains the key entries |
| `LlmHandler.CollectClientCacheKeys` | backend/llm.py:306-307 | the loop records exactly the keys `ClientCacheKeys` names: each provider with the first ten characters of its key |
| `Sessions.MetadataOrEmpty` | backend/models/session.py:29 | `metadata or {}` leaves a given dict as it is and turns None into an empty dict |
| `Sessions.ActionDicts` | backend/models/session.py:44-51 | one dict per action, in order |
| `Sessions.UserSession.constructor` | backend/models/session.py:16-22 | a new session starts with creation time and last activity both `now` and no actions |
| `Sessions.UserSession.AddAction` | backend/models/session.py:24-32 | exactly one action is appended, at the end, and the last activity becomes `now` |
| `Sessions.UserSession.UpdateActivity` | backend/models/session.py:34-36 | only the last activity changes |
| `Sessions.UserSession.ToDict` | backend/models/session.py:38-53 | the five keys in order, with the actions and the metadata |
| `Sessions.UserSession.ToDictActions` | backend/models/session.py:38-53 | looking up `user_actions` and `session_id` in the dict gives the action list and the id |
| `Sessions.SessionStore.constructor` | backend/models/session.py:59-60 | the store starts empty |
| `Sessions.SessionStore.GetSession` | backend/models/session.py:68-70 | a session is found exactly when the id is stored, and it is filed under its own id |
| `Sessions.SessionStore.ActiveCount` | backend/models/session.py:98-100 | the count is zero exactly when the store is empty |
| `Sessions.SessionStore.CreateSession` | backend/models/session.py:62-66 | a fresh session is stored under its id with the given metadata, or an empty dict when none is given |
| `Sessions.SessionStore.UpdateSession` | backend/models/session.py:72-74 | the session replaces whatever was filed under its id; other ids are unchanged |
| `Sessions.SessionStore.DeleteSession` | backend/models/session.py:76-81 | returns true exactly when the id was present; the id is gone afterwards |
| `Sessions.SessionStore.CleanupExpiredSessions` | backend/models/session.py:83-96 | exactly the sessions last active before the cutoff are removed and the others are untouched; the count returned is the number removed |
| `SessionMiddleware.ExtractSessionId` | backend/middleware/session.py:76-84 | a non-empty header wins; otherwise the cookie value, or none |
| `SessionMiddleware.ClientIp` | backend/middleware/session.py:86-91 | a non-empty `x-forwarded-for` gives its first comma-separated entry, stripped |
| `SessionMiddleware.ClientIpFallbacks` | backend/middleware/session.py:93-101 | otherwise `x-real-ip`, then the client host, then "unknown" |
| `SessionMiddleware.ClientIpFirstHop` | backend/middleware/session.py:89-91 | only the first hop of a forwarded chain is kept |
| `SessionMiddleware.ResponseFor` | backend/middleware/session.py:59-72 | the session header whenever there is a session; the cookie only when the incoming id was missing or differs, with httponly, not secure, `lax` and `max_age` hours × 3600 |
| `SessionMiddleware.NoCookieForKnownSession` | backend/middleware/session.py:63-64 | a client that sent its own session id gets no new cookie |
| `SessionMiddleware.NewSessionMetadata` | backend/middleware/session.py:44-49 | a new session's metadata holds exactly the user agent, the client IP and the referer, each empty when absent |
| `SessionMiddleware.Dispatch` | backend/middleware/session.py:29-74 | a stored session named by the request is reused and touched, and nothing is created; otherwise one is created at `now` from the request metadata only when auto-creation is on; no other session's activity changes and no session's actions or metadata change; the response headers follow `ResponseFor` |
| `SessionMiddleware.RequireSession` | backend/middleware/session.py:104-114 | raises "No active session found" exactly when the state holds no session |
| `DataUtils.TruncateString` | backend/utils.py:21-24 | a string of at most 40 characters is kept; a longer one becomes its first 40, `...` and ` (N chars)` |
| `DataUtils.TruncatedLengthReadable` | backend/utils.py:23-24 | the suffix of a truncated string spells out the original length in decimal |
| `DataUtils.Truncate` | backend/utils.py:11-30 | dicts keep their keys in order and lists their length; anything else, a top-level string included, comes back unchanged |
| `DataUtils.TruncateDictValue` | backend/utils.py:15-24 | dict values are truncated when strings, processed recursively when dicts or lists, and kept otherwise |
| `DataUtils.TruncateListItem` | backend/utils.py:26-28 | list elements are processed recursively, and a string element is left whole |
| `DataUtils.TruncateShortUnchanged` | backend/utils.py:11-30 | data with no long string in any dict comes back unchanged |
| `DataUtils.FormattedEvents` | backend/utils.py:33-38 | succeeds exactly when every event has at least four fields, and otherwise raises IndexError |
| `DataUtils.FormattedEventsFails` | backend/utils.py:36 | one event with fewer than four fields makes the whole call raise IndexError |
| `DataUtils.FormatUserData` | backend/utils.py:33-38 | the accumulator loop agrees with `FormattedEvents` |
| `DataUtils.OneLinePerEvent` | backend/utils.py:35-37 | with no line break inside the fields, there is exactly one line per event |
| `DataUtils.Summarize` | backend/utils.py:44-58 | the record holds the completion and its length; the summary names the length, and ends in ` (Large)` exactly when the length exceeds 1000 |
| `DataUtils.ProcessCompletionData` | backend/utils.py:40-60 | one record per completion, in order, with the length counted character by character |
| `DataUtils.ValidateInputData` | backend/utils.py:62-68 | false exactly for None and for a value whose `str` is empty, which is only the empty string |
| `DataUtils.ItemLinesSnoc` | backend/utils.py:74-76 | adding an item appends its line, numbered after the others |
| `DataUtils.GenerateReportText` | backend/utils.py:70-80 | the concatenation loop agrees with `ReportText` |
| `DataUtils.ReportText` | backend/utils.py:72-79 | the report starts with the title and 20 `=` and ends with "\nTotal items: N" |
| `DataUtils.ReportLineCount` | backend/utils.py:70-80 | with no line break inside any item, the report has two header lines, one line per item and the total line |
| `Evals.HtmlFiles` | backend/routes/evals.py:66-70 | only the listed `.html` files are kept |
| `Evals.BaseName` | backend/routes/evals.py:75-79 | a name with an underscore gives its prefix before the last underscore |
| `Evals.BaseNameUnderscore` | backend/routes/evals.py:75-79 | a name with an underscore gives everything before its last underscore |
| `Evals.BaseNameHtml` | backend/routes/evals.py:75-79 | `<stem>.html` gives the stem when the stem has no underscore and `.html` matches only at the end (no copy inside the stem, none overlapping its end) |
| `Evals.BaseNameExample` | backend/tests/test_evals.py:30 | `test.html` gives `test` |
| `Evals.BaseNameDottedExample` | backend/routes/evals.py:75-79 | a dotted stem keeps its dots: `page.v2.html` gives `page.v2` |
| `Evals.BaseNames` | backend/routes/evals.py:73-80 | the base names are exactly those of the folder's files |
| `Evals.FirstMatch` | backend/routes/evals.py:88-92 | nothing is found exactly when no file name starts with the base name |
| `Evals.FirstMatchIsFirst` | backend/routes/evals.py:88-92 | the output chosen is the first HTML file, in listing order, whose name starts with the base name |
| `Evals.InputImage` | backend/routes/evals.py:168-173 | the input image when it exists, otherwise the fixed 1×1 PNG data URL |
| `Evals.PathBaseName` | backend/routes/evals.py:197-198 | the folder's display name is the longest suffix of the path containing no `/` |
| `Evals.CollectEvals` | backend/routes/evals.py:82-98 | one eval per name that yields one, each name visited once, in the set's iteration order |
| `Evals.SingleEval` | backend/routes/evals.py:82-98 | exactly the base names with an input image and a matching file give an eval, with one output |
| `Evals.GetEvals` | backend/routes/evals.py:56-100 | an empty folder path gives status 400 and a missing one 404; otherwise one eval per qualifying base name |
| `Evals.PairwiseCommonNames` | backend/routes/evals.py:158-163 | the common names are the folder-1 base names that some folder-2 file name starts with |
| `Evals.PairEval` | backend/routes/evals.py:165-194 | an eval is made only when both outputs are non-empty, ordered folder 1 then folder 2 |
| `Evals.GetPairwiseEvals` | backend/routes/evals.py:144-202 | a missing folder gives the error; otherwise the evals of the common names and both display names |
| `Evals.IsFolderScan` | backend/routes/evals.py:298-302 | `folder1`, `folder2`, ... are collected in order up to the first missing index |
| `Evals.FolderScanUnique` | backend/routes/evals.py:298-302 | a query has one scan result |
| `Evals.FolderParams` | backend/routes/evals.py:298-302 | the `folder{i}` loop ends, and collects the scan |
| `Evals.FirstMissing` | backend/routes/evals.py:308-310 | none exactly when every folder exists, otherwise the first one that does not |
| `Evals.CheckFolders` | backend/routes/evals.py:308-310 | the checking loop reports the first missing folder |
| `Evals.BestOfNCommonNames` | backend/routes/evals.py:326-339 | the common names are the first folder's base names that a file name in every other folder starts with |
| `Evals.FoundInAll` | backend/routes/evals.py:333-338 | the scan is true exactly when every folder after the first has a file name starting with the base name |
| `Evals.OutputOrMissing` | backend/routes/evals.py:360-363 | an empty or missing output becomes the "Output not found" placeholder |
| `Evals.BestEval` | backend/routes/evals.py:342-366 | every common name gives an eval with exactly one output per folder, in folder order |
| `Evals.GetBestOfNEvals` | backend/routes/evals.py:294-368 | no folders gives "No folders provided"; the first missing folder gives its error; otherwise the evals of the common names and the folder display names |

## Left out

- Network clients and streaming. The `_stream_*_sync` stubs are the constant `StubCompletion` (on success the handlers return it). `AsyncOpenAI`, `AsyncAnthropic` and `genai.Client` are tags in the client map. The async wrappers `stream_openai_response`, `stream_claude_response` and `stream_gemini_response` add nothing to the legacy functions and are not modelled.
- The clock. `time.time()` and `datetime.utcnow()` are integer parameters. One `start`/`finish` pair stands for every duration in a call. Timestamps of log entries are one `now` reading.
- Floating point and tuples. The model's JSON values (`JsonValue.Json`) have no float case and no tuple case. Temperatures (`0.0`/`None` in the table) are a flag saying whether a temperature is set. Float options passed to the handlers cannot be represented. Python's `str`/`repr` of a float is not modelled.
- DataUtils.FormatUserData: an event is a list of JSON values, so an event whose timestamp is a float (`time.time()`, as the analytics code stores it) is outside the model. For example, `("u1", "login", 1.5, None)` cannot be written. The model covers events whose fields are integers, strings, booleans, `None`, lists or dicts.
- UUID generation for sessions. The fresh id is a parameter.
- `process_image` (not shown) is a function parameter. The custom processors are functions. The error handlers are modelled only as the set of model types that have one: their side effects are not modelled.
- `LlmHandler.MainLlmProcessor` calls `process_all_message_types…` with no error handlers and no processors, so only that case is used there.
- The outer `except` of `process_all_message_types…` ("Critical error in message processing") is not modelled. It is reached by an exception raised outside the per-message `try`, such as a `messages` that is `None` or a number. A dict or a string still iterates; each element is then a string, and its `.get` raises AttributeError inside the per-message `try`, so that error is caught per message. It is also reached by an error handler that raises inside the inner `except` (backend/llm.py:273-274): the source then logs "Critical error in message processing" and returns the original messages. The model's handlers are only a set of model types and never raise, so this path does not arise in the model.
- Aliasing. The source mutates the caller's content dicts in place while processing messages. The model returns the processed values, so callers do not see their own messages change.
- `callback` and `extra_params` are passed through unused in the source and are left out.
- `load_config`'s file read, `setup_logging` and `logger.info`: the configuration is a given value. `GLOBAL_CONFIG_MANAGER` is a parameter of `MainLlmProcessor`.
- `IS_DEBUG_ENABLED` and the debug file writer are outside the shown code. The flag is a parameter.
- `get_global_stats` is the `Globals.Stats` function, which only collects the fields.
- LlmRequests.DictKey: a pair whose key is a number, a bool or `None` is refused with `TypeError("dict key is not a string")`, while Python builds a dict with that key. The model's JSON objects have string keys only, so they cannot hold one.
- JsonValue.EscapeChar: non-ASCII characters that Python's `repr` counts as non-printable (escaped there as `\xNN`, `\uNNNN` or `\UNNNNNNNN`) are kept as themselves. Unicode's printable classes are not modelled.
- Python dict iteration order is insertion order, and is kept. Python `set` iteration order is unspecified. The eval routes visit their names in an arbitrary order, shown through a ghost sequence.
- backend/routes/evals.py:
  - `os.listdir`, `open` and `os.path.exists` become the given listing with file contents.
  - `image_to_data_url` becomes the map from base name to data URL.
  - The status-500 path for I/O failures is not modelled.
  - `run_evals` calls a runner that is not part of this model.
  - `get_models` uses an `Llm` enum that backend/llm.py does not define, so it is not modelled.
- `pprint_prompt` only prints, and is not modelled.
- The session middleware's `logger.debug` calls and `call_next` are not modelled. The request's headers are given with lower-case names.
- `SessionMiddleware.Dispatch`: `SESSION_MAX_AGE_HOURS` comes from a configuration module outside the model and is a parameter.
