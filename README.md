# Pisces SOC console — a Dafny model of its core

Pisces is a security-operations console. A Flask backend fronts the SecMaster
SIEM, keeps local snapshots of incidents in MySQL, scores the AI's alert
decisions and builds a knowledge graph and summary for each incident through a
LightRAG service. A Vue front end talks to it and keeps a few lists in browser
storage. This project models the logic at the centre of that system and proves
what it promises:

- **Incident graph synchronisation** (`graph_protocol.dfy`, `graph_client.dfy`,
  `graph_service.dfy`, `graph_scheduler.dfy`). This covers the LightRAG client's
  polling and clearing loops, the graph bundle built from an incident and its
  alerts, and the periodic job that re-syncs changed incidents and rebuilds
  their graphs. The remote service is an oracle that answers the k-th request.
  Time is a monotonic clock that requests and sleeps advance. Each client loop
  is a method proved to produce exactly the outcome and request transcript
  that its specification function gives.
- **Backend helpers.** These cover SecMaster search conditions
  (`http_util.dfy`), the configuration-driven toolkit API caller
  (`toolkit_engine.dfy`, `toolkits_view.dfy`), and the emptiness test, AES
  block padding and SecMaster time stamps (`common_utils.dfy`, over the
  proleptic Gregorian calendar of `calendar.dfy`). They also cover AI-decision
  scoring (`ai_decision.dfy`), the suggested-prompt endpoint
  (`ai_prompt_view.dfy`), the shaping loops of the statistics service
  (`stats_shaping.dfy`) and the local incident table's normalisation and
  keyed upsert (`incident_model.dfy`).
- **Front-end utilities.** These cover the attack-surface request builders
  (`asm_api.dfy`), the close-comment histories (`close_comment_history.dfy`,
  `recent_close_comments.dfy`, over `browser_storage.dfy`) and the severity
  conversions (`severity.dfy`).
- **Mock endpoints.** These cover the in-memory alert, incident and dashboard
  views (`mock_records.dfy`, `mock_alerts.dfy`, `mock_incidents.dfy`,
  `mock_dashboard.dfy`).

Shared vocabulary lives in `wrappers.dfy` (Option and Result) and `values.dfy`,
which models the dynamic JSON values the core handles (null, booleans,
integers, strings, lists and dicts; there is no float), truthiness in both
languages and dicts as ordered key/value lists. `json_strings.dfy` holds the string escapes of
Python's `json.dumps` in both `ensure_ascii` modes, with a decoder that reads
them back. The remaining shared modules are `text.dfy`
(string operations, the six ASCII whitespace characters and ASCII case), `seqs.dfy` (Python slicing and
de-duplication) and `sorting.dfy`.

Objects whose fields the source updates in place are classes:

- the LightRAG client with its transcript and clock;
- the incident table;
- the mock alert and incident lists;
- browser storage.

The rest is functions and lemmas.

## Model

| member | source | states |
|---|---|---|
| AiDecision.VerdictName | api/controllers/ai_decision_service.py:10-13 | the stored verdict is one of "TT", "FP" and "FN" |
| AiDecision.EvaluateAiDecision | api/controllers/ai_decision_service.py:7-38 | no verdict for an auto-closed alert or a falsy close reason or verification state; a verdict exactly for the four known (close reason, verification state) pairs, and then the confusion class of "Resolved" against "True_Positive" |
| AiDecision.Confusion | api/controllers/ai_decision_service.py:28-35 | TT exactly when the AI's call agrees with the analyst's, FP exactly when it flags a false detection, FN exactly when it misses a resolved threat |
| AiPromptView.NormRoute | api/views/ai_prompt_view.py:33-39 | empty exactly for an empty input; otherwise starts with "/", holds no "?" and is "/" or does not end in "/" |
| AiPromptView.RoutePath | api/views/ai_prompt_view.py:36-38 | the stripped text before the first "?" is non-empty, starts with "/" and holds no "?" |
| AiPromptView.NormRouteIdempotent | api/views/ai_prompt_view.py:33-39 | normalising a normalised route leaves it unchanged exactly when it is empty or does not end in whitespace |
| AiPromptView.NormRouteTwice | api/views/ai_prompt_view.py:33-39 | "/ /" normalises to "/ ", which normalises again to "/" |
| AiPromptView.NormLang | api/views/ai_prompt_view.py:42-48 | "zh" exactly when the lower-cased input starts with "zh", "en" exactly when it starts with "en", the lower-cased input otherwise |
| AiPromptView.NormLangIdempotent | api/views/ai_prompt_view.py:42-48 | normalising a normalised language changes nothing |
| AiPromptView.RouteKey | api/views/ai_prompt_view.py:62-64 | "/alerts/detail" exactly for a route under "/alerts/" with two slashes, the route itself otherwise |
| AiPromptView.RouteKeyDetail | api/views/ai_prompt_view.py:62-64 | every "/alerts/<id>" page shares the key "/alerts/detail", and "/alerts" keeps its own |
| AiPromptView.LangPrompts | api/views/ai_prompt_view.py:69 | at most one prompt per item, and every prompt is truthy |
| AiPromptView.LangPromptsFrom | api/views/ai_prompt_view.py:69 | every prompt found is the language's value of some dict item |
| AiPromptView.PromptsOf | api/views/ai_prompt_view.py:67-69 | iterating the configured entries raises exactly for a number or boolean; a list yields its items' prompts; a dict or string yields none |
| AiPromptView.Sample | api/views/ai_prompt_view.py:72 | `random.sample` returns `k` elements drawn without replacement from the pool |
| AiPromptView.PromptsFor | api/views/ai_prompt_view.py:53-74 | status 400 with a message exactly when the route is empty or the language unsupported; otherwise status 200 with at most three prompts |
| AiPromptView.PromptsForChoice | api/views/ai_prompt_view.py:66-72 | the answer is every configured prompt, in order, when there are at most three, otherwise three of them drawn without replacement |
| HttpUtil.RemoveLastSlash | api/utils/http_util.py:25-29 | a missing or empty URL comes back unchanged; a URL ending in "/" loses exactly that one "/"; any other URL is unchanged |
| HttpUtil.ConditionsAt | api/utils/http_util.py:39-53 | condition `k` is named field plus `k`, the counter running over all pairs, with data [field, "contains", value] |
| HttpUtil.LogicsShape | api/utils/http_util.py:50-55 | the logics are empty for no pairs, else 2n-1 long and alternate name, "and", name, starting and ending with a name |
| HttpUtil.BuildConditionsAndLogics | api/utils/http_util.py:36-56 | the nested loops yield one condition per flattened (field, value) pair, in input order, and the logics of their names |
| ToolkitEngine.Placeholder | api/utils/toolkit_api_engine.py:70 | the placeholder of a URL variable is its key between braces |
| ToolkitEngine.ReplacePlaceholder | api/utils/toolkit_api_engine.py:69-70 | a `{key}` placeholder in an endpoint without other braces is replaced by the variable's value |
| ToolkitEngine.PlaceholderFirst | api/utils/toolkit_api_engine.py:69-70 | a `{key}` placeholder at the start of the endpoint is replaced by the variable's value |
| ToolkitEngine.BuildUrl | api/utils/toolkit_api_engine.py:61-82 | a non-dict url_variables raises, and so does a non-string endpoint with variables to substitute; with both parts truthy strings the URL is the base without trailing "/", one "/", and the substituted endpoint without leading "/", and a truthy non-string among two truthy parts raises; with one truthy part that configured value itself, whatever its type; with neither a ValueError |
| ToolkitEngine.JoinedUrlOneSlash | api/utils/toolkit_api_engine.py:73-74 | a joined URL has exactly one "/" between base and endpoint |
| ToolkitEngine.ContentTypeDefault | api/utils/toolkit_api_engine.py:90-94 | Content-Type is "application/json" unless a custom header of that name overrides it |
| ToolkitEngine.BuildHeaders | api/utils/toolkit_api_engine.py:84-122 | api_key auth sets its header only for a truthy key value, bearer auth sets "Bearer <token>" only for a truthy token, custom auth adds its headers, other kinds add nothing |
| ToolkitEngine.GetNestedValue | api/utils/toolkit_api_engine.py:182-193 | the loop's result is the walk of the dotted path through nested objects, None at the first non-object or missing key |
| ToolkitEngine.SetPath | api/utils/toolkit_api_engine.py:195-203 | setting a dotted path succeeds exactly when every intermediate key is absent or holds an object |
| ToolkitEngine.GetAfterSet | api/utils/toolkit_api_engine.py:182-203 | reading a path back after setting it gives the value set |
| ToolkitEngine.SetPathOthers | api/utils/toolkit_api_engine.py:195-203 | setting a path leaves every other top-level key unchanged |
| ToolkitEngine.ApplyTransform | api/utils/toolkit_api_engine.py:205-222 | an unknown transform keeps the value; to_string renders it, to_int gives an integer or 0 for a falsy value, to_list wraps a non-list, join joins a list of strings; one that raises keeps the value |
| ToolkitEngine.MappedValue | api/utils/toolkit_api_engine.py:155-178 | a string mapping copies the named parameter; a dict mapping whose source is a list or dict raises (an unhashable key for params.get), otherwise it takes its source or default (then the transform); any other mapping is a constant |
| ToolkitEngine.BuildJsonBody | api/utils/toolkit_api_engine.py:148-180 | an empty field mapping returns the parameters unchanged; otherwise the loop's body is the mappings applied in order |
| ToolkitEngine.MappedBodyFails | api/utils/toolkit_api_engine.py:155-178 | once one mapping raises, building the whole body raises |
| ToolkitEngine.MappedBodyFields | api/utils/toolkit_api_engine.py:155-178 | with plain, distinct targets every target receives the value its mapping produces |
| ToolkitEngine.ParamsOverrideContext | api/utils/toolkit_api_engine.py:139-142 | a parameter wins over an alert-context entry with the same key; other context entries are kept |
| ToolkitEngine.DictAt | api/utils/toolkit_api_engine.py:133 | `.get(key, {})` used as a dict: an absent key reads as empty, a present object is itself, and any other value (None included) raises |
| ToolkitEngine.BuildRequestBody | api/utils/toolkit_api_engine.py:124-146 | a request_body that is not an object raises; a falsy field_mapping gives the JSON text of the merged parameters, a truthy non-object one raises at `.items()`, and an object gives the mapped body's JSON text or the raise of a mapping |
| ToolkitEngine.ExtractResult | api/utils/toolkit_api_engine.py:302-318 | an empty path returns the data; otherwise the loop's result is the walk of the dotted path |
| ToolkitEngine.ExtractSteps | api/utils/toolkit_api_engine.py:309-317 | digit keys index lists, an index past the end gives None, a non-digit key on a list or any step through a scalar gives None |
| ToolkitEngine.FirstToolFrom | api/utils/toolkit_api_engine.py:344-351 | the tool found is one of the configured entries |
| ToolkitEngine.FirstToolFound | api/utils/toolkit_api_engine.py:344-355 | the tool found is the first whose app id (and type, when given) matches, having passed over only non-matching objects; with none found, no object up to the first non-object matches |
| ToolkitEngine.FindToolConfig | api/utils/toolkit_api_engine.py:344-355 | the loop returns the first matching tool, or None |
| CommonUtils.IsEmptyVersusFalsy | api/utils/common_utils.py:41-45 | only None and "" are empty; every empty value is falsy, and the falsy values that are not empty are exactly False, 0, [] and {} |
| CommonUtils.Utf8Nuls | api/utils/common_utils.py:53-54 | the UTF-8 encoding of k NUL characters is k zero bytes |
| CommonUtils.AddTo16 | api/utils/common_utils.py:48-54 | the result starts with the text's UTF-8 bytes, is padded with fewer than 16 zero bytes, and its length is a multiple of 16 |
| CommonUtils.MatchStamp | api/utils/common_utils.py:110-112 | a match has a 19-character YYYY-MM-DDTHH:mm:ss date part, an optional fraction of 1 to 6 digits, a sign and two-digit hour and minute offsets |
| CommonUtils.NormalizeFraction | api/utils/common_utils.py:128-131 | a fraction of up to 3 digits is right-padded to 3; a longer one is cut to 6 and padded to 6, keeping its digits |
| CommonUtils.StrpTime | api/utils/common_utils.py:133-142 | a successful strptime gives a valid naive date-time |
| CommonUtils.DigitsBound | api/utils/common_utils.py:124-125 | a digit string of length n is worth less than 10^n |
| CommonUtils.ParseDateTimeWithTimezone | api/utils/common_utils.py:93-150 | an absent or empty input gives None; a parsed result is a valid UTC date-time |
| CommonUtils.ParseMatch | api/utils/common_utils.py:121-150 | an invalid local date-time gives None; otherwise the result is the local instant minus the signed offset, tagged UTC, and raises only when that leaves the range of datetime |
| CommonUtils.PaddedFraction | api/utils/common_utils.py:128-131 | padding the normalised fraction to 6 digits keeps the fraction's digits and appends zeros |
| CommonUtils.FractionMicros | api/utils/common_utils.py:128-138 | a fraction of n digits gives its value times 10^(6-n) microseconds |
| CommonUtils.ZerosValue | api/utils/common_utils.py:129-131 | a run of zero padding is worth 0 |
| CommonUtils.DatePartString | api/utils/common_utils.py:176 | the formatted date part is 19 characters whose fields read back as year, month, day, hour, minute and second |
| CommonUtils.DbString | api/utils/common_utils.py:174-176 | the database string is 29 characters: the date part, ".", the milliseconds in three digits and "Z+0000" |
| CommonUtils.ToUtc | api/utils/common_utils.py:168-172 | a naive or UTC date-time is tagged UTC unchanged; an aware one is moved by its offset, and the result is UTC |
| CommonUtils.FormatUtcDateTimeToDbString | api/utils/common_utils.py:153-176 | None gives None; a date-time gives a 29-character string ending in "Z+0000" |
| CommonUtils.MatchDbString | api/utils/common_utils.py:111-112 | the parser's pattern matches every database string, with its date part, its milliseconds and a +0000 offset |
| CommonUtils.StrpTimeDbString | api/utils/common_utils.py:128-140 | reading a database string's date part and milliseconds back gives the date-time cut to milliseconds |
| CommonUtils.ParseOfMatch | api/utils/common_utils.py:145-150 | with a zero offset the parsed date-time is the local one, tagged UTC |
| CommonUtils.ParseDbString | api/utils/common_utils.py:93-150 | parsing a database string gives the UTC date-time it was made from, cut to milliseconds |
| CommonUtils.ParseFormatRoundTrip | api/utils/common_utils.py:93-176 | formatting a naive or UTC date-time and parsing the text back gives the same date-time cut to milliseconds |
| Calendar.Ordinal | api/utils/common_utils.py:136-148 | a day's ordinal lies within its year's range of ordinals |
| Calendar.FromOrdinal | api/utils/common_utils.py:148 | the day built from an ordinal has that ordinal, and is a valid date below the maximum ordinal |
| Calendar.OrdinalInjective | api/utils/common_utils.py:148 | distinct days have distinct ordinals |
| Calendar.FromOrdinalOrdinal | api/utils/common_utils.py:148 | rebuilding a day from its ordinal gives the same day |
| Calendar.OrdinalInRange | api/utils/common_utils.py:148 | every valid day has an ordinal datetime can hold |
| Calendar.NextDay | api/controllers/stats_service.py:358 | the next day's ordinal is one more |
| Calendar.WallMicros | api/utils/common_utils.py:148 | a valid date-time's instant lies within the range of datetime |
| Calendar.FromMicros | api/utils/common_utils.py:148 | the date-time built from an instant has that instant and the given offset |
| Calendar.WallMicrosInjective | api/utils/common_utils.py:148 | distinct date-times with the same offset have distinct instants |
| Calendar.FromMicrosWallMicros | api/utils/common_utils.py:148 | rebuilding a date-time from its instant gives the same date-time |
| Calendar.Shift | api/utils/common_utils.py:148 | adding a time span succeeds exactly when the result stays within the range of datetime, and keeps the offset |
| Calendar.ShiftZero | api/utils/common_utils.py:148 | adding no time gives the date-time back |
| ToolkitsView.NameOf | api/views/toolkits_view.py:22-25 | a string mapping names itself; a dict names its "source", else its "from"; anything else names nothing |
| ToolkitsView.DefaultOf | api/views/toolkits_view.py:26 | only a dict mapping can carry a default |
| ToolkitsView.MakeParam | api/views/toolkits_view.py:31-37 | the parameter carries the name, its label with "_" turned into spaces and title-cased, a defaultValue exactly when the mapping has one, and is required exactly when it has none |
| ToolkitsView.ExtractStep | api/views/toolkits_view.py:17-38 | one loop step raises exactly on a truthy non-string name, and otherwise appends at most one parameter and keeps the ones before |
| ToolkitsView.ExtractParamsErrors | api/views/toolkits_view.py:12-40 | the extraction raises exactly when some mapping's source name is truthy but not a string |
| ToolkitsView.ExtractFails | api/views/toolkits_view.py:17-38 | extending the mapping by one entry raises exactly when the shorter one raised or the new name is bad |
| ToolkitsView.ExtractParamsNames | api/views/toolkits_view.py:12-40 | the parameter names are the distinct source names in order of first occurrence |
| ToolkitsView.ExtractParamsFirst | api/views/toolkits_view.py:12-40 | each parameter is the one made from the first mapping with its name |
| ToolkitsView.FirstMappingAbsent | api/views/toolkits_view.py:29 | a name no mapping uses has no first mapping |
| ToolkitsView.ErrorSticks | api/views/toolkits_view.py:17-38 | once the extraction has raised, later mappings do not change the outcome |
| ToolkitsView.CollectParams | api/views/toolkits_view.py:12-40 | the loop with its seen set computes the extraction |
| ToolkitsView.WithUsername | api/views/toolkits_view.py:55-60 | without a "username" parameter nothing changes; otherwise only the first one gets the user as default and becomes optional |
| ToolkitsView.WithUsernameUnique | api/views/toolkits_view.py:55-60 | with distinct names the single "username" parameter gets the user and every other parameter is unchanged |
| ToolkitsView.FieldMappingOf | api/views/toolkits_view.py:51 | the field mapping under api.request_body, an absent section reading as empty, and AttributeError naming the first section present but not an object (None included) |
| ToolkitsView.ToolFromParams | api/views/toolkits_view.py:43-62 | a built tool implies every section was an object; it lists each source name of api.request_body.field_mapping once, and only a "username" parameter carries the user's name |
| ToolkitsView.SetUsernameDefault | api/views/toolkits_view.py:55-60 | the loop with its break updates exactly the first "username" parameter |
| ToolkitsView.BuildTool | api/views/toolkits_view.py:43-62 | the tool built is the specification's: AttributeError where a config section is not an object, else app id, type and title copied, parameters extracted, user default applied when the user name is truthy |
| AsmApi.TrimValue | web/src/api/asm.js:92-102 | a string value is trimmed, any other value kept |
| AsmApi.TitleKeywords | web/src/api/asm.js:87-95 | every keyword of the legacy form is a non-empty trimmed title keyword, at most one per item |
| AsmApi.TitleKeywordsExact | web/src/api/asm.js:87-95 | the legacy form keeps exactly the non-blank strings, trimmed, in order, as title keywords |
| AsmApi.TitleKeywordsOf | web/src/api/asm.js:90-93 | one title keyword per word, in order |
| AsmApi.ObjectKeywords | web/src/api/asm.js:98-104 | every kept keyword has a truthy field and a non-empty value, at most one per item |
| AsmApi.NormalizeSearchKeywords | web/src/api/asm.js:82-105 | a non-array gives no keyword; an array starting with a string is read in the legacy form; every keyword has a truthy field and a non-empty value |
| AsmApi.ApiField | web/src/api/asm.js:127-133 | the field "id" is sent as "alert_id"; every other field under its own name |
| AsmApi.StatusCondition | web/src/api/asm.js:117-120 | the status condition is on "handle_status"; a status whose property-key form (String(status)) is a known client status is sent in the API's spelling, any other value unchanged |
| AsmApi.StatusConditionCoerced | web/src/api/asm.js:119 | a one-element array holding a client status is mapped exactly like that status, as the property-key coercion does |
| AsmApi.KeywordConditions | web/src/api/asm.js:125-137 | one condition per keyword, in order, on the keyword's API field with its value |
| AsmApi.Conditions | web/src/api/asm.js:113-140 | the status condition comes first exactly when a truthy status other than "all" is given, followed by one condition per normalised keyword |
| AsmApi.BuildConditions | web/src/api/asm.js:113-140 | the method with its push loop returns the conditions of the specification |
| AsmApi.PushKeywordConditions | web/src/api/asm.js:125-137 | the forEach loop appends the keyword conditions to those already built |
| AsmApi.PageWindow | web/src/api/asm.js:164-167 | page and size default to 1 and 10 when falsy; the offset is (page - 1) * size and the limit the size |
| AsmApi.PageWindowsAdjacent | web/src/api/asm.js:164-167 | a page starts where the previous one ends, the first page at offset 0, and page 0 reads as page 1 |
| AsmApi.CloseReasonOf | web/src/api/asm.js:34-39 | a known category is renamed to the API's close reason, any other truthy value sent as is, and a falsy one becomes "Other" |
| LightRag.RetryDelay | api/controllers/event_graph_service.py:99 | the clear interval and retry delay are at least one second, and the poll interval itself when that is at least one second |
| LightRag.ClearAttempts | api/controllers/event_graph_service.py:262 | clear_documents makes at least one attempt |
| LightRag.Send | api/controllers/event_graph_service.py:333-363 | a request adds exactly one call to the transcript, answered by the server, and the clock advances |
| LightRag.Sleep | api/controllers/event_graph_service.py:141 | sleeping sends nothing and advances the clock by the interval |
| LightRag.ExtendsTrans | api/controllers/event_graph_service.py:103-141 | transcripts extend transitively, and the calls of two stretches are concatenated |
| LightRag.CountEntries | api/controllers/event_graph_service.py:325-329 | every count is kept under its key, as its integer value or 0 where int() raises |
| Text.ParseIntGrouped | api/controllers/event_graph_service.py:327 | `int()` accepts single underscores between digits: "1_000" is 1000 |
| Text.ParseIntDoubledUnderscore | api/controllers/event_graph_service.py:327 | a doubled underscore is no literal, so `int("1__0")` raises |
| LightRag.DecodeStatusCounts | api/controllers/event_graph_service.py:319-330 | a failed request or non-JSON reply is an EventGraphGenerationError; a JSON reply that is not an object crashes |
| LightRag.GetStatusCounts | api/controllers/event_graph_service.py:319-330 | one GET /documents/status_counts is sent and its reply decoded |
| LightRag.ClearFrom | api/controllers/event_graph_service.py:267-313 | the remaining attempts send at least one request and advance the clock |
| LightRag.ClearDocuments | api/controllers/event_graph_service.py:253-317 | clear_documents sends at least one request and never raises |
| LightRag.ClearFromRun | api/controllers/event_graph_service.py:267-313 | the remaining attempts send only DELETE /documents, retrying exactly while the reply is busy or the request failed, at most once per attempt |
| LightRag.ClearDocumentsRun | api/controllers/event_graph_service.py:253-317 | clear_documents sends 1 to max_retry_attempts DELETEs, retried exactly while the workspace is busy or the request failed |
| LightRag.EnsureEmptyFrom | api/controllers/event_graph_service.py:103-141 | the polling loop only extends the transcript |
| LightRag.EnsureWorkspaceEmpty | api/controllers/event_graph_service.py:85-141 | ensure_workspace_empty only extends the transcript |
| LightRag.TrafficAppend | api/controllers/event_graph_service.py:103-141 | joining two stretches of polls and clears keeps every DELETE preceded by a DELETE or by a poll of an idle, non-empty workspace |
| LightRag.RoundTraffic | api/controllers/event_graph_service.py:104-133 | one round is a poll followed, if it cleared, by the DELETEs of clear_documents |
| LightRag.EnsureEmptyTraffic | api/controllers/event_graph_service.py:103-141 | the wait sends only polls and DELETEs, and a clear starts only after a poll that found documents, none of them processing |
| LightRag.RoundThenRest | api/controllers/event_graph_service.py:103-141 | a round that kept waiting, followed by the rest of the loop, keeps the rest's ending |
| LightRag.LastRoundOutcome | api/controllers/event_graph_service.py:104-139 | the last round ends the wait as its poll decides |
| LightRag.KeptWaitingOutcome | api/controllers/event_graph_service.py:103-141 | a round that kept waiting does not change how the wait ends |
| LightRag.EnsureEmptyOutcome | api/controllers/event_graph_service.py:103-141 | the wait returns exactly when a poll finds a total of 0, keeps polling while the total is not 0 and the timeout has not passed, and otherwise fails at its last poll with the read error or a timeout |
| LightRag.ClearedAfterJoin | api/controllers/event_graph_service.py:120-133 | in a round followed by the rest, the round's poll started a clear exactly when DELETEs follow it, and the rest's clears keep their places |
| LightRag.RoundThenRestSpaced | api/controllers/event_graph_service.py:121-133 | clears stay at least clear_interval apart across a round and the rest |
| LightRag.DueInTail | api/controllers/event_graph_service.py:121-133 | a clear due in the rest of the loop is due from the rest's own last clear |
| LightRag.RoundThenRestDue | api/controllers/event_graph_service.py:121-133 | every due clear is made across a round and the rest |
| LightRag.RoundThenRestClears | api/controllers/event_graph_service.py:121-133 | spacing and due clears both hold across a round and the rest |
| LightRag.EnsureEmptyClears | api/controllers/event_graph_service.py:103-141 | while waiting the client clears exactly when a poll finds documents, none processing, and at least clear_interval has passed since its previous clear |
| LightRag.EnsureEmptyClearsLast | api/controllers/event_graph_service.py:104-139 | the last round (empty, failed poll or timeout) keeps the clearing rule |
| LightRag.RoundClears | api/controllers/event_graph_service.py:112-133 | a round that found documents clears exactly when none were processing and a clear was due |
| LightRag.DecodeTrackId | api/controllers/event_graph_service.py:149-153 | the track id is the reply's truthy "track_id", else the one under "data"; a missing one raises EventGraphGenerationError |
| LightRag.InsertText | api/controllers/event_graph_service.py:143-153 | one POST /documents/text is sent, with the file source only when non-empty |
| LightRag.DocumentStatuses | api/controllers/event_graph_service.py:170 | the statuses are the upper-cased truthy statuses of the documents, and reading them fails exactly where a document is not readable |
| LightRag.DecodeTrack | api/controllers/event_graph_service.py:164-176 | a poll is complete when there are documents with statuses, all PROCESSED or PREPROCESSED, failed when one is FAILED or ERROR, otherwise still running |
| LightRag.TrackFrom | api/controllers/event_graph_service.py:163-183 | a completed wait returns a non-empty list of document objects |
| LightRag.WaitForTrackCompletion | api/controllers/event_graph_service.py:155-183 | a completed wait returns a non-empty list of document objects |
| LightRag.TrackOutcome | api/controllers/event_graph_service.py:163-183 | every poll asks for the same track; every poll but the last found the documents still running within the timeout; the last decides, and an unfinished last poll came after the timeout |
| LightRag.TruthyOnly | api/controllers/event_graph_service.py:191-193 | the truthy elements are kept, and only they |
| LightRag.Iterate | api/controllers/event_graph_service.py:215-217 | extending by a list adds its items; by an int, bool or None raises |
| LightRag.DecodeLabels | api/controllers/event_graph_service.py:211-219 | a failed label request adds no label |
| LightRag.ResolveGraphLabels | api/controllers/event_graph_service.py:208-220 | the labels start with "*" and are all truthy; without a document id nothing is sent and the result is ["*"] |
| LightRag.DecodeGraph | api/controllers/event_graph_service.py:230-234 | an object reply gives its "graph" object when there is one, otherwise the whole reply |
| LightRag.FetchFrom | api/controllers/event_graph_service.py:191-206 | the label loop only extends the transcript |
| LightRag.FetchGraphData | api/controllers/event_graph_service.py:185-206 | fetch_graph_data only extends the transcript |
| LightRag.TruthyOnlyStep | api/controllers/event_graph_service.py:191-193 | the truthy labels from i on are the label at i if truthy, then those after it |
| LightRag.PrependFailedLabel | api/controllers/event_graph_service.py:194-200 | a failed fetch before the rest of the loop keeps the loop's verdict with that label tried |
| LightRag.FetchOutcome | api/controllers/event_graph_service.py:185-206 | the loop asks for the truthy labels in order, returns the first graph a request yields, and after every label failed raises naming the labels tried (or "no valid label" when there were none) |
| LightRag.FetchSkips | api/controllers/event_graph_service.py:192-193 | a falsy label is skipped without a request |
| LightRag.FetchEnds | api/controllers/event_graph_service.py:202-206 | with no labels left the loop raises without a request |
| LightRag.FetchStops | api/controllers/event_graph_service.py:196 | a fetch that yields a graph or crashes ends the loop |
| LightRag.FetchGoesOn | api/controllers/event_graph_service.py:197-200 | a fetch that fails moves on to the next label |
| LightRag.DecodeSummary | api/controllers/event_graph_service.py:250-251 | the summary is the reply's truthy "response", else its "data"; a non-object reply crashes |
| LightRag.QuerySummary | api/controllers/event_graph_service.py:236-251 | one POST /query with the prompt is sent and its reply decoded |
| GraphClient.LightRagClient.Init | api/controllers/event_graph_service.py:74-83 | a new client holds the server, the settings and an empty transcript |
| GraphClient.LightRagClient.Open | api/controllers/event_graph_service.py:74-77 | construction fails with EventGraphGenerationError exactly when no base URL is configured |
| GraphClient.LightRagClient.Send | api/controllers/event_graph_service.py:333-363 | the client's transcript grows by the request and its reply |
| GraphClient.LightRagClient.Wait | api/controllers/event_graph_service.py:141 | the client's clock advances by the interval |
| GraphClient.LightRagClient.GetStatusCounts | api/controllers/event_graph_service.py:319-330 | the method's reply and new transcript are those of LightRag.GetStatusCounts |
| GraphClient.LightRagClient.ClearDocuments | api/controllers/event_graph_service.py:253-317 | the retry loop leaves the transcript LightRag.ClearDocuments describes |
| GraphClient.LightRagClient.EnsureWorkspaceEmpty | api/controllers/event_graph_service.py:85-141 | the polling loop returns and leaves what LightRag.EnsureWorkspaceEmpty describes |
| GraphClient.LightRagClient.InsertText | api/controllers/event_graph_service.py:143-153 | the track id and transcript are those of LightRag.InsertText |
| GraphClient.LightRagClient.WaitForTrackCompletion | api/controllers/event_graph_service.py:155-183 | the polling loop returns and leaves what LightRag.WaitForTrackCompletion describes |
| GraphClient.LightRagClient.ResolveGraphLabels | api/controllers/event_graph_service.py:208-220 | the labels and transcript are those of LightRag.ResolveGraphLabels |
| GraphClient.LightRagClient.FetchGraphData | api/controllers/event_graph_service.py:185-206 | the graph and transcript are those of LightRag.FetchGraphData |
| GraphClient.LightRagClient.FetchLabels | api/controllers/event_graph_service.py:189-206 | the label loop returns and leaves what LightRag.FetchFrom describes from the first label |
| GraphClient.LightRagClient.QuerySummary | api/controllers/event_graph_service.py:236-251 | the summary and transcript are those of LightRag.QuerySummary |
| EventGraph.StringifyValue | api/controllers/event_graph_service.py:539-547 | None becomes "", a string is kept, anything else is its `json.dumps(ensure_ascii=False)` text, which holds no raw control character |
| EventGraph.StringifyValueEscapes | api/controllers/event_graph_service.py:545 | in that text a backspace is written `\b` and a non-ASCII letter is kept |
| EventGraph.BuildFileSource | api/controllers/event_graph_service.py:487-489 | the file source is "incident::" followed by the truthy id, else the truthy incident_id, else "unknown" |
| EventGraph.CleanLabelsAppend | api/controllers/event_graph_service.py:495-499 | joining two lists of non-empty stripped labels gives one |
| EventGraph.Candidate | api/controllers/event_graph_service.py:495-499 | a value adds one label, its stripped text, exactly when it is truthy and its text is not blank |
| EventGraph.IncidentCandidates | api/controllers/event_graph_service.py:501-504 | the incident's title, name, id and incident_id add only non-empty stripped labels |
| EventGraph.AlertPair | api/controllers/event_graph_service.py:507-508 | an alert's title and id add only non-empty stripped labels |
| EventGraph.AlertCandidates | api/controllers/event_graph_service.py:506-508 | the alerts add only non-empty stripped labels |
| EventGraph.FallbackClean | api/controllers/event_graph_service.py:510 | the collected labels end with "incident", "event", "alert" |
| EventGraph.RawCandidatesClean | api/controllers/event_graph_service.py:493-510 | the labels before de-duplication are non-empty stripped strings ending with the three fall-back labels |
| EventGraph.DedupClean | api/controllers/event_graph_service.py:512-518 | de-duplication keeps labels non-empty and stripped |
| EventGraph.LabelCandidatesShape | api/controllers/event_graph_service.py:492-518 | the candidates are the collected labels, each once, in order of first occurrence, non-empty and stripped, and always include "incident", "event" and "alert" |
| EventGraph.AlertCandidatesSnoc | api/controllers/event_graph_service.py:506-508 | one more alert appends its title and id labels |
| EventGraph.BuildGraphLabelCandidates | api/controllers/event_graph_service.py:492-518 | the method with its seen set returns the label candidates of the specification |
| EventGraph.DedupSeen | api/controllers/event_graph_service.py:512-518 | the loop with its seen set keeps the first occurrence of each label |
| EventGraph.RenderIncident | api/controllers/event_graph_service.py:451-470 | the incident's optional owner lines never look like an alert title line |
| EventGraph.AlertTitlesAppend | api/controllers/event_graph_service.py:484 | the alert title lines of joined parts are those of each part, in order |
| EventGraph.NoTitles | api/controllers/event_graph_service.py:458-470 | lines without a title line contain none |
| EventGraph.NoAlertTitleAppend | api/controllers/event_graph_service.py:458-470 | joining parts without title lines gives none |
| EventGraph.CaptionLine | api/controllers/event_graph_service.py:458-481 | a line starting with a caption other than "  Alert <n>" is not an alert title line |
| EventGraph.TitleLineIsTitle | api/controllers/event_graph_service.py:476 | the "  Alert <idx> Title:" line is an alert title line |
| EventGraph.OptionalLineNoTitle | api/controllers/event_graph_service.py:465-470 | an optional owner line is not an alert title line |
| EventGraph.HeadLinesNoTitle | api/controllers/event_graph_service.py:458-473 | the incident part and the "Associated Alerts:" line hold no alert title line |
| EventGraph.BlockLinesTitles | api/controllers/event_graph_service.py:475-482 | each alert block holds exactly one title line, numbered with the block's index |
| EventGraph.NumberedTitles | api/controllers/event_graph_service.py:474-476 | one title line per alert |
| EventGraph.NumberedTitlesAt | api/controllers/event_graph_service.py:474-476 | the k-th title line carries index first + k and the k-th alert's title |
| EventGraph.AlertBlocksTitles | api/controllers/event_graph_service.py:474-482 | the alert blocks hold exactly the numbered title lines of their alerts, in order |
| EventGraph.SectionTitles | api/controllers/event_graph_service.py:458-482 | the incident part holds no alert title; the whole payload holds those of the alerts shown, numbered from 1 |
| EventGraph.PayloadAlertTitles | api/controllers/event_graph_service.py:472-482 | the payload describes at most 10 alerts, the first ones given, with titles numbered from 1 |
| EventGraph.BuildInsertPayload | api/controllers/event_graph_service.py:447-484 | the method's line-by-line payload is the specification's, or a crash where rendering the labels raises |
| EventGraph.BuildSummaryPrompt | api/controllers/event_graph_service.py:521-536 | a blank context gives the stripped base prompt; otherwise the prompt gains only a header naming the incident id, and never the context itself |
| EventGraph.SummaryPromptIgnoresContext | api/controllers/event_graph_service.py:530-536 | any two non-blank contexts give the same prompt |
| EventGraph.Attempt | api/controllers/event_graph_service.py:413-428 | an attempt only extends the transcript; through FromTrack, a graph whose nodes or edges has no len() crashes the attempt |
| EventGraph.FromInsert | api/controllers/event_graph_service.py:415-428 | the attempt after the workspace is empty only extends the transcript, with the success log line's TypeError a crash as in FromTrack |
| EventGraph.FromTrack | api/controllers/event_graph_service.py:416-428 | once the document is in, every failure is flagged as having documents; a success never has a dict graph whose "nodes" or "edges" lacks len(), because the log line's TypeError is a crash before the clear |
| EventGraph.Cleanup | api/controllers/event_graph_service.py:437-441 | the clean-up only extends the transcript |
| EventGraph.GenerateAttempts | api/controllers/event_graph_service.py:409 | at least one attempt is made |
| EventGraph.GenerateFrom | api/controllers/event_graph_service.py:411-444 | the attempts made stay within the bound, and an EventGraphGenerationError is raised only after the last attempt; a crash, such as the log line's TypeError, ends the loop without clean-up |
| EventGraph.GenerateGraphBundle | api/controllers/event_graph_service.py:399-444 | without a base URL it raises before sending anything; otherwise at least one and at most max_retry_attempts attempts are made, each as FromTrack describes, log-line crash included |
| EventGraph.FirstAfterTraffic | api/controllers/event_graph_service.py:414-415 | after the wait for an empty workspace, the first other request is the one right after it |
| EventGraph.NotAcceptedYet | api/controllers/event_graph_service.py:414 | the wait for an empty workspace inserts nothing |
| EventGraph.AcceptedAt | api/controllers/event_graph_service.py:415-416 | the insert after the wait is accepted exactly when its reply carries a track id |
| EventGraph.FromInsertFlag | api/controllers/event_graph_service.py:415-416 | the first request after the wait is the insert, and has_documents is set exactly when it returned a track id |
| EventGraph.AttemptInsertFlag | api/controllers/event_graph_service.py:412-416 | has_documents is exactly whether insert_text succeeded in the attempt; a successful attempt inserted its document |
| EventGraph.InsertFlagAfterEmpty | api/controllers/event_graph_service.py:414-416 | once the wait is over, the insert decides has_documents |
| EventGraph.AcceptedThrough | api/controllers/event_graph_service.py:415-416 | the insert right after the wait decides whether the document went in |
| EventGraph.QueryThenClearAfter | api/controllers/event_graph_service.py:420-427 | earlier traffic does not hide a query followed by a clear |
| EventGraph.FromTrackClears | api/controllers/event_graph_service.py:417-428 | a successful attempt ends with the summary query followed by exactly one clear_documents |
| EventGraph.AttemptSuccessClears | api/controllers/event_graph_service.py:413-428 | a successful attempt ends with the summary query followed by exactly one clear_documents |
| EventGraph.FailedAttemptCleanup | api/controllers/event_graph_service.py:429-441 | after a failed attempt the workspace is cleared exactly when insert_text had succeeded in it, and nothing is sent otherwise |
| EventGraph.AttemptWith | api/controllers/event_graph_service.py:412-428 | the client's attempt, log-line crash included, returns and leaves what Attempt describes |
| EventGraph.RunGenerateGraphBundle | api/controllers/event_graph_service.py:399-444 | on a fresh client the outcome and transcript, log-line crash included, are those GenerateGraphBundle specifies |
| GraphScheduler.StringifyPresent | api/controllers/incident_graph_scheduler.py:97 | at most one string per item |
| GraphScheduler.NormalizeAlertList | api/controllers/incident_graph_scheduler.py:93-98 | a falsy value or a non-list gives []; a list gives at most one id per item |
| GraphScheduler.StringifyPresentExact | api/controllers/incident_graph_scheduler.py:97 | exactly one string per item that is not None, and every such item's text is among them |
| GraphScheduler.StringifyPresentAppend | api/controllers/incident_graph_scheduler.py:97 | the ids of joined lists are the ids of each, in order |
| GraphScheduler.AlertCountsEqual | api/controllers/incident_graph_scheduler.py:101-102 | two alert lists are equal exactly when their lengths are |
| GraphScheduler.Remote | api/controllers/incident_graph_scheduler.py:44-55 | a snapshot without a truthy id is skipped; otherwise the remote incident is what the fetch returns, None where it raised |
| GraphScheduler.RefreshEffects | api/controllers/incident_graph_scheduler.py:109-117 | a refresh generates once and writes the bundle for the same incident exactly when generation succeeded |
| GraphScheduler.SnapshotUpsert | api/controllers/incident_graph_scheduler.py:57-77 | the local snapshot is upserted, first and once, with the remote payload, exactly when the fetch succeeded and the alert count drifted; nothing follows a failed upsert |
| GraphScheduler.SnapshotSkips | api/controllers/incident_graph_scheduler.py:44-64 | a snapshot without id or remote record, or with an unchanged count and a present bundle, has no effect |
| GraphScheduler.SnapshotRefresh | api/controllers/incident_graph_scheduler.py:86-117 | every effect concerns the snapshot's incident, generation runs only when LightRAG is configured, and a bundle is written only right after a generation that produced it |
| GraphScheduler.TickAppend | api/controllers/incident_graph_scheduler.py:43-90 | the sweep over two runs of snapshots is the sweep over the first, then over the second |
| GraphScheduler.SkippedSnapshot | api/controllers/incident_graph_scheduler.py:44-55 | a snapshot that is skipped leaves the rest of the sweep unchanged |
| GraphScheduler.QuietTick | api/controllers/incident_graph_scheduler.py:43-64 | a sweep over snapshots with nothing to do has no effect |
| GraphScheduler.AppliedAppend | api/controllers/incident_graph_scheduler.py:74 | applying two runs of effects is applying the first, then the second |
| GraphScheduler.RefreshApplied | api/controllers/incident_graph_scheduler.py:111-112 | under the store behaviour assumed by Step (see Left out), a completed generation and write set both bundle flags from the bundle's halves |
| GraphScheduler.SyncShape | api/controllers/incident_graph_scheduler.py:57-90 | with a completed upsert, the effects are the upsert if the count drifted, then the refresh if configured, and nothing when neither drift nor a missing bundle calls for it |
| GraphScheduler.SyncSettles | api/controllers/incident_graph_scheduler.py:57-117 | under the store behaviour assumed by Step (see Left out): once the upsert and the generation and write complete with a non-empty bundle, the next sweep with the same remote data leaves that incident alone |
| GraphScheduler.SyncIncident | api/controllers/incident_graph_scheduler.py:57-90 | the method's effects for a fetched incident are those of the specification |
| GraphScheduler.Run | api/controllers/incident_graph_scheduler.py:38-90 | the sweep's effects are those of every snapshot, in order |
| StatsShaping.NormalizeDatetimeToUtc | api/controllers/stats_service.py:13-32 | None stays None, a naive date-time is kept, an aware one becomes the naive UTC date-time at the same instant, raising only past the range of datetime |
| StatsShaping.NormalizeIdempotent | api/controllers/stats_service.py:13-32 | normalising a normalised date-time changes nothing |
| StatsShaping.RequireRange | api/controllers/stats_service.py:846-860 | the AI analysis raises ValueError exactly when an end of the range is missing |
| StatsShaping.ProductKey | api/controllers/stats_service.py:128 | a row is filed under its product name, or "Unknown" when it has none |
| StatsShaping.TallyAbsent | api/controllers/stats_service.py:127-135 | a product no row is filed under has nothing counted |
| StatsShaping.ExpectedSnoc | api/controllers/stats_service.py:127-135 | one more row adds its count to its product's bucket for its closure type only |
| StatsShaping.CountByProduct | api/controllers/stats_service.py:126-137 | the result has exactly one entry per product seen, and each holds, per closure type, the sum of that product's counts |
| StatsShaping.InitialGrid | api/controllers/stats_service.py:167-174 | the starting grid has every standard status with every standard severity at 0 |
| StatsShaping.CellAbsent | api/controllers/stats_service.py:240-253 | a status and severity no row has count 0 |
| StatsShaping.CellSnoc | api/controllers/stats_service.py:240-253 | one more row adds its count to its own status and severity only |
| StatsShaping.AddCount | api/controllers/stats_service.py:248-253 | adding a row creates its status and severity when missing and adds its count there, leaving every other cell as it was |
| StatsShaping.StatusesSnoc | api/controllers/stats_service.py:241-249 | one more row adds its status to those seen |
| StatsShaping.SeveritiesSnoc | api/controllers/stats_service.py:242-251 | one more row adds its severity under its status |
| StatsShaping.GridKeysStep | api/controllers/stats_service.py:248-249 | a loop step keeps the statuses those seen plus the standard ones |
| StatsShaping.GridRowsStep | api/controllers/stats_service.py:250-251 | a loop step keeps under each status its severities seen plus the standard ones |
| StatsShaping.GridCellsStep | api/controllers/stats_service.py:253 | a loop step keeps each cell the sum of its rows' counts |
| StatsShaping.GridStep | api/controllers/stats_service.py:240-253 | a loop step keeps the grid the grid of the rows so far |
| StatsShaping.StatusBySeverity | api/controllers/stats_service.py:166-255 | the grid holds the standard statuses and every status seen, under each the standard severities and those seen with it, and in each cell the sum of the counts of its rows |
| StatsShaping.CountsByLabel | api/controllers/stats_service.py:311 | the lookup has exactly the labels of the rows |
| StatsShaping.CountsByLabelLast | api/controllers/stats_service.py:311 | a label's count is that of the last row with that label |
| StatsShaping.DayLabels | api/controllers/stats_service.py:352-358 | one label per day of the walk |
| StatsShaping.WalkDays | api/controllers/stats_service.py:349-358 | the walk yields one "%Y-%m-%d" label per day from start to end inclusive, ascending, or OverflowError once it steps past 9999-12-31 |
| StatsShaping.GapFilled | api/controllers/stats_service.py:352-358 | one entry per label, in order, each with its label |
| StatsShaping.FillLabels | api/controllers/stats_service.py:316-322 | the loop appends each label with its count, or 0 |
| StatsShaping.FillDays | api/controllers/stats_service.py:363-411 | no range gives []; otherwise the daily trend is every day of the range with its count, or 0, or OverflowError |
| StatsShaping.HourLabels | api/controllers/stats_service.py:316-322 | one label per hour of the walk |
| StatsShaping.HourFields | api/controllers/stats_service.py:313-314 | a date-time on a whole hour has zero minutes, seconds and microseconds, and its date and hour come from its hour number |
| StatsShaping.HourInRange | api/controllers/stats_service.py:316-322 | every date-time's hour lies within the range of datetime |
| StatsShaping.HourString | api/controllers/stats_service.py:317 | the "%Y-%m-%d %H:00:00" text of a date-time is the label of its hour |
| StatsShaping.NextHour | api/controllers/stats_service.py:322 | adding an hour to a whole hour gives the next hour, and raises only on the last hour datetime holds |
| StatsShaping.FloorHour | api/controllers/stats_service.py:313-314 | truncating to the hour keeps the hour and the offset and lands on a whole hour |
| StatsShaping.WalkHours | api/controllers/stats_service.py:313-322 | the walk yields one label per hour from the start's hour to the end's inclusive, ascending, or OverflowError past the last hour |
| StatsShaping.WalkWholeHours | api/controllers/stats_service.py:316-322 | from a whole hour, the loop yields one label per hour up to the end's inclusive, or OverflowError past the last hour |
| StatsShaping.AlertTrend | api/controllers/stats_service.py:258-360 | no range gives []; a range of at most 24 hours gives the gap-filled hourly trend, any longer one the gap-filled daily trend |
| StatsShaping.NormalizeSeverity | api/controllers/stats_service.py:503-507 | a missing or empty severity reads "Unknown"; any other keeps its length |
| StatsShaping.NormalizeSeverityCase | api/controllers/stats_service.py:503-507 | normalising ignores letter case, treats None as "", and is idempotent |
| StatsShaping.TrendData | api/controllers/stats_service.py:509-516 | one entry per row |
| StatsShaping.CollectTrendData | api/controllers/stats_service.py:509-516 | the loop builds the rows' entries with severities normalised |
| StatsShaping.PresentSeverities | api/controllers/stats_service.py:532-534 | exactly the non-empty severities that occur in the entries |
| StatsShaping.AllSeverities | api/controllers/stats_service.py:522-549 | the severities are sorted, distinct, and exactly the standard ones plus those that occur |
| StatsShaping.SeveritiesOfRows | api/controllers/stats_service.py:503-534 | a severity is listed exactly when it is standard or some row normalises to it |
| StatsShaping.CollectSeverities | api/controllers/stats_service.py:522-549 | the loop with its set gives the sorted severities |
| StatsShaping.TableCountAbsent | api/controllers/stats_service.py:537-550 | a date and severity no entry has count 0 |
| StatsShaping.TableCountLast | api/controllers/stats_service.py:537-544 | a date and severity count as in the last entry that has them |
| StatsShaping.SeverityTableSnoc | api/controllers/stats_service.py:538-544 | one more entry sets its date and severity and keeps the others |
| StatsShaping.BuildSeverityTable | api/controllers/stats_service.py:537-544 | the loop builds the date and severity lookup |
| StatsShaping.DateBlock | api/controllers/stats_service.py:549-555 | one entry per severity for a date |
| StatsShaping.CompleteTrendAt | api/controllers/stats_service.py:547-555 | the trend has one entry per date and severity, date-major, each with its looked-up count |
| StatsShaping.CrossProduct | api/controllers/stats_service.py:547-555 | the nested loops build the complete trend |
| StatsShaping.SeverityResultCovers | api/controllers/stats_service.py:518-557 | every day of the range appears with every standard severity, counted from the last row for it, or 0 |
| StatsShaping.CompleteTrendHas | api/controllers/stats_service.py:547-555 | each date and severity pair has its entry |
| StatsShaping.TrendBySeverity | api/controllers/stats_service.py:467-557 | no range gives []; otherwise the trend is the cross product of the range's days and the severities, or OverflowError |
| StatsShaping.CategoryOf | api/controllers/stats_service.py:887-895 | TP and TT fall in TP; anything other than TP, TT, FP or FN, NULL included, falls in Empty |
| StatsShaping.WithCount | api/controllers/stats_service.py:888-895 | setting one category leaves the others unchanged |
| StatsShaping.DecisionItems | api/controllers/stats_service.py:898-903 | Empty comes last, always; before it TP, FP and FN in that order, each exactly when its count is above 0, each with its category's count |
| StatsShaping.ItemsTotalAppend | api/controllers/stats_service.py:906 | the sum over joined items is the sum of the sums |
| StatsShaping.DecisionItemsTotal | api/controllers/stats_service.py:898-906 | total_decisions is the sum of the four counts |
| StatsShaping.FoldDecisions | api/controllers/stats_service.py:882-895 | the loop, with the correction under Findings, leaves each category holding the sum of the counts of its rows |
| StatsShaping.SumValues | api/controllers/stats_service.py:906 | the loop sums the items' values |
| StatsShaping.AiDecisionAnalysis | api/controllers/stats_service.py:830-911 | without both ends of the range ValueError; otherwise the items of the added counts, and total_decisions equals the number of alerts counted |
| StatsShaping.AsWrittenLosesTp | api/controllers/stats_service.py:887-888 | as written, rows TT 3 and TP 2 report TP 2 and a total of 2 for 5 alerts |
| StatsShaping.CountsAddedTotal | api/controllers/stats_service.py:882-906 | with counts added, total_decisions is the sum of all row counts |
| StatsShaping.AsWrittenWhenDistinct | api/controllers/stats_service.py:882-895 | the loop as written agrees with the added counts whenever no two rows share a category other than Empty |
| StatsShaping.CategoryAbsent | api/controllers/stats_service.py:882-895 | a category no row falls in counts 0 |
| IncidentModel.EnumOr | api/models/incident.py:144-174 | an enum value is kept when it is one of the column's choices and replaced by the fallback otherwise; a list or dict value is unhashable and raises |
| IncidentModel.JsonText | api/models/incident.py:176-182 | a dict or list description or extend_properties is stored as its `json.dumps` text with the default `ensure_ascii`, which is printable ASCII; anything else as given |
| IncidentModel.JsonTextEscapesNonAscii | api/models/incident.py:178 | a stored list holding "é" is written with the escape `\u00e9` |
| IncidentModel.LabelStrings | api/models/incident.py:186-187 | a label list has a string form exactly when every item is a string, item for item |
| IncidentModel.NormalizeLabels | api/models/incident.py:184-189 | an empty list and "-" store NULL, a list of strings is comma-joined, a list with a non-string item raises, anything else is stored as given |
| IncidentModel.JoinLength | api/models/incident.py:187 | joining n labels writes at least n-1 separators |
| IncidentModel.LabelsOfStrings | api/models/incident.py:186-187 | a non-empty list of strings is stored as exactly their comma-joined text |
| IncidentModel.LabelsRoundTrip | api/models/incident.py:187 | stored labels without commas split back into the original list |
| IncidentModel.BuildIncidentEntity | api/models/incident.py:135-213 | the built row keeps the payload's id and always holds a severity and handle status from the column enums |
| IncidentModel.EnumDefaults | api/models/incident.py:137-174 | severity outside TIPS..FATAL becomes MEDIUM, handle_status outside Open/Block/Closed becomes Open, close_reason outside its enum becomes NULL, accepted values are kept |
| IncidentModel.RenderedFields | api/models/incident.py:195-211 | ttd is its string form when truthy and NULL otherwise, is_auto_closed its string form unless absent, and a close_time of "-" is NULL |
| IncidentModel.BuildErrors | api/models/incident.py:135-213 | building raises exactly when an enum value is a list or dict or a list of labels holds a non-string |
| IncidentModel.FirstRow | api/models/incident.py:82 | the lookup finds the first row with the id, or reports that no row has it |
| IncidentModel.UpsertKeyed | api/models/incident.py:82-112 | after an upsert ids stay unique, the one row with the id is the new row, every other row is kept and no other row appears, and the table grows only when the id was new |
| IncidentModel.UpsertIdempotent | api/models/incident.py:82-112 | upserting the same row twice leaves the table as upserting it once |
| IncidentModel.FirstRowSame | api/models/incident.py:82 | tables agreeing before position i that both hold the id at i find it at i |
| IncidentModel.IncidentTable.Empty | api/models/incident.py:8-9 | a new table has no rows |
| IncidentModel.IncidentTable.FindRow | api/models/incident.py:82 | the scan returns the position of the first row with the id |
| IncidentModel.IncidentTable.Upsert | api/models/incident.py:74-122 | a payload without a truthy id raises ValueError; otherwise the result is the built row, the table is unchanged on error and is the keyed upsert of the old table on success |
| Seqs.PushRecent | web/src/utils/closeCommentHistory.js:35-41 | the new history starts with the comment, holds it once, follows it with the earlier entries other than it in their order, keeps at most the limit and invents nothing |
| Seqs.PushRecentTwice | web/src/utils/closeCommentHistory.js:35-41 | putting the same comment first twice gives the history putting it first once does |
| BrowserStorage.RewriteSame | web/src/utils/closeCommentHistory.js:44 | writing a slot with the content it already holds leaves the storage unchanged |
| BrowserStorage.LocalStorage.Empty | web/src/utils/closeCommentHistory.js:44 | a fresh storage has no slots |
| BrowserStorage.LocalStorage.SetItem | web/src/utils/closeCommentHistory.js:44 | setItem replaces exactly the named slot with the written value |
| BrowserStorage.LocalStorage.RemoveItem | web/src/utils/closeCommentHistory.js:83 | removeItem drops exactly the named slot |
| CloseCommentHistory.StorageKey | web/src/utils/closeCommentHistory.js:15-17 | "alert" and only "alert" uses the alert key; every other kind uses the incident key |
| CloseCommentHistory.NonBlankStrings | web/src/utils/closeCommentHistory.js:69 | the filter keeps only non-blank strings and never grows the list |
| CloseCommentHistory.NonBlankStringsStable | web/src/utils/closeCommentHistory.js:69 | a list of non-blank strings passes the filter unchanged |
| CloseCommentHistory.HistoryOf | web/src/utils/closeCommentHistory.js:58-73 | a missing, unparsable or non-array slot reads as the empty history, and every entry read is non-blank |
| CloseCommentHistory.WrittenHistory | web/src/utils/closeCommentHistory.js:44-74 | a history of non-blank comments written to a kind's slot reads back as written |
| CloseCommentHistory.ReadSlot | web/src/utils/closeCommentHistory.js:57-69 | a kind's history is the filtered array held in that kind's slot |
| CloseCommentHistory.PushedNonBlank | web/src/utils/closeCommentHistory.js:35-41 | putting a non-blank comment first keeps every entry non-blank |
| CloseCommentHistory.SavedHistory | web/src/utils/closeCommentHistory.js:24-48 | after saving a non-blank comment the kind's history is the old one with the trimmed comment first, once, at most five entries, earlier entries in order; the other kind's history is untouched |
| CloseCommentHistory.OtherSlot | web/src/utils/closeCommentHistory.js:15-17 | writing one kind's slot leaves every history stored under the other key as it was |
| CloseCommentHistory.SaveBlank | web/src/utils/closeCommentHistory.js:25-27 | a blank comment leaves the storage unchanged |
| CloseCommentHistory.SaveTwice | web/src/utils/closeCommentHistory.js:24-48 | saving the same comment twice leaves the storage as saving it once |
| CloseCommentHistory.ClearedHistory | web/src/utils/closeCommentHistory.js:80-87 | after a clear the kind's history is empty and the other kind's is untouched |
| CloseCommentHistory.GetCloseCommentHistory | web/src/utils/closeCommentHistory.js:55-74 | the getter returns the kind's history as read from its slot |
| CloseCommentHistory.SaveCloseComment | web/src/utils/closeCommentHistory.js:24-48 | the storage after a save is the specified saved storage (unchanged for a blank comment) |
| CloseCommentHistory.ClearCloseCommentHistory | web/src/utils/closeCommentHistory.js:80-87 | the storage after a clear lacks exactly the kind's slot |
| JsonStrings.EscapeChar | api/models/incident.py:178 | a character is written as itself exactly when the encoder leaves it alone: the quote, the backslash, every control character and, under `ensure_ascii`, everything outside U+0020 to U+007E are escaped; the result holds no raw control character and is printable ASCII under `ensure_ascii` |
| JsonStrings.JsonEscape | api/controllers/event_graph_service.py:545 | the inside of a string literal holds no raw control character, is printable ASCII under `ensure_ascii`, and keeps every character the encoder leaves alone |
| JsonStrings.HexQuadOf | api/models/incident.py:178 | the four hex digits of a `\uXXXX` escape read back as its code |
| JsonStrings.UnescapeChar | api/models/incident.py:178 | decoding one written character, single escape or surrogate pair, gives that character back before the rest |
| JsonStrings.UnescapeEscape | api/models/incident.py:178 | in either mode, decoding the escaped text gives back exactly the string written |
| JsonStrings.EscapeModesAgree | api/controllers/event_graph_service.py:545 | on printable ASCII text the two modes write the same escapes |
| JsonStrings.EscapeLatinSmallEAcute | api/models/incident.py:178 | "é" is written `\u00e9` under `ensure_ascii` and kept as itself without it |
| JsonStrings.EscapeBackspace | api/controllers/event_graph_service.py:545 | a backspace is written `\b` in either mode |
| Values.JsonQuote | api/controllers/event_graph_service.py:545 | a string becomes a quoted literal whose inside decodes back to the string |
| Values.JsonDumpsWritten | api/models/incident.py:178 | a JSON document holds no raw control character, and under `ensure_ascii` it is printable ASCII whatever its strings hold |
| Values.TrimmedStrings | web/src/utils/recentCloseComments.js:8-10 | the strings of a list, trimmed, with blanks and non-strings dropped: every entry is trimmed and non-blank and the list never grows |
| Values.TrimmedStringsStable | web/src/utils/recentCloseComments.js:8-10 | a list of trimmed non-blank strings normalises to itself |
| RecentCloseComments.NormalizeList | web/src/utils/recentCloseComments.js:6-11 | a non-array is the empty list; an array gives its trimmed non-blank strings |
| RecentCloseComments.Recent | web/src/utils/recentCloseComments.js:13-23 | the stored list reads as at most five trimmed non-blank comments, empty when the slot is missing or unparsable |
| RecentCloseComments.CommentValue | web/src/utils/recentCloseComments.js:27 | a string comment is recorded trimmed, anything else as the empty string |
| RecentCloseComments.WrittenList | web/src/utils/recentCloseComments.js:19-33 | a list of at most five trimmed non-blank comments written to the slot reads back as written |
| RecentCloseComments.ReadSlot | web/src/utils/recentCloseComments.js:16-19 | the list is read from the value parsed out of the slot |
| RecentCloseComments.PushedTrimmed | web/src/utils/recentCloseComments.js:30-31 | putting a trimmed non-blank comment first keeps every entry trimmed and non-blank |
| RecentCloseComments.SavedRead | web/src/utils/recentCloseComments.js:25-38 | a save returns what a later read gives back; for a non-blank comment that is the old list with the trimmed comment first, once, at most five entries |
| RecentCloseComments.SaveTwice | web/src/utils/recentCloseComments.js:30-31 | saving the same comment twice stores and returns what saving it once does |
| RecentCloseComments.GetRecentCloseComments | web/src/utils/recentCloseComments.js:13-23 | the getter returns the list read from the storage |
| RecentCloseComments.SaveRecentCloseComment | web/src/utils/recentCloseComments.js:25-38 | a save returns the specified list and leaves the specified storage, unchanged for a blank or non-string comment |
| Severity.SeverityToNumber | web/src/utils/severity.js:25-42 | a level exists exactly for a truthy value whose lower-cased trimmed text is a known name, and it is that name's level from 1 to 5 |
| Severity.NumberToSeverity | web/src/utils/severity.js:53-67 | a name exists exactly for a number from 1 to 5 |
| Severity.LevelRoundTrip | web/src/utils/severity.js:25-67 | for every level from 1 to 5, the level's name converts back to that level |
| Severity.LoweredName | web/src/utils/severity.js:32-64 | each level's name lower-cases to a key of the name table that maps back to the level |
| Severity.NameRoundTrip | web/src/utils/severity.js:25-67 | a name read as a level and written back gives a canonical name with the same level |
| Severity.CaseInsensitive | web/src/utils/severity.js:30 | lower-casing a name does not change its level |
| MockRecords.IdIsUnique | api/views/mock_alert_view.py:132 | a requested JSON value equals at most one integer id (True and False count as 1 and 0) |
| MockRecords.FirstFrom | api/views/mock_alert_view.py:132 | the scan from a position finds the first record at or after it whose id equals the value, or reports none there |
| MockRecords.FirstWithId | api/views/mock_alert_view.py:132 | `next(...)` finds the first record whose id equals the value, and finds none exactly when no record has it |
| MockRecords.FirstWithUnique | api/views/mock_alert_view.py:132 | with unique ids the record found is the one record with that id |
| MockRecords.MatchCount | api/views/mock_alert_view.py:130-135 | the closed count never exceeds the number of requested ids |
| MockRecords.MatchCountSnoc | api/views/mock_alert_view.py:131-135 | one more requested id adds one to the count exactly when it names a record |
| MockRecords.MatchCountBounds | api/views/mock_alert_view.py:130-135 | every request counts exactly when every requested id names a record, and none counts exactly when none does |
| MockRecords.MaxOr | api/views/mock_alert_view.py:228 | `max(ids, default=d)` is at least every id, is one of them, and is d for no ids |
| MockRecords.NextId | api/views/mock_alert_view.py:228 | a new record's id is larger than every id in use, so it is fresh; with no records it is d+1 |
| MockRecords.FreshFront | api/views/mock_alert_view.py:228-264 | inserting a record with the new id in front keeps ids unique |
| MockAlerts.Ids | api/views/mock_alert_view.py:228 | the ids of the alerts, position for position |
| MockAlerts.SearchKeywords | api/views/mock_alert_view.py:45-51 | a falsy search gives no keywords; a string gives trimmed non-blank parts; a list is taken as it is; anything else gives none |
| MockAlerts.TitleMatches | api/views/mock_alert_view.py:55 | a title matches exactly when it holds every keyword, case-insensitively; the check fails only when a keyword or the title is not a string |
| MockAlerts.KeywordFilter | api/views/mock_alert_view.py:53-55 | the kept alerts are exactly those whose title holds every keyword, and none is invented |
| MockAlerts.StatusFilter | api/views/mock_alert_view.py:59 | the kept alerts are exactly those with the requested status |
| MockAlerts.Filtered | api/views/mock_alert_view.py:44-59 | the filtered list holds exactly the alerts both filters keep; the status filter applies unless the status is falsy or "all" |
| MockAlerts.FilterBy | api/views/mock_alert_view.py:44-59 | with the keywords read, the list holds exactly the alerts whose title holds every keyword and, when filtered, whose status matches |
| MockAlerts.StatusFilterSnoc | api/views/mock_alert_view.py:59 | the status filter is an in-order subsequence: one more alert at the end is appended exactly when its status matches |
| MockAlerts.KeywordFilterSnoc | api/views/mock_alert_view.py:53-55 | the keyword filter is an in-order subsequence, duplicates kept: one more alert is appended exactly when its title holds every keyword |
| MockAlerts.FilterBySnoc | api/views/mock_alert_view.py:44-59 | both filters together keep order and duplicates: the earlier answer is a prefix, followed by the new alert exactly when both keep it |
| MockAlerts.FilteredSnoc | api/views/mock_alert_view.py:44-59 | the filtered list that ListAlerts pages is the in-order subsequence of the alerts both filters keep |
| MockAlerts.ListAlerts | api/views/mock_alert_view.py:29-75 | on success total is the filtered count before paging and data is the page of the filtered list; a page number int() rejects or a non-string keyword fails the request |
| MockAlerts.PageContents | api/views/mock_alert_view.py:63-65 | page p of size s is the stretch [(p-1)s, ps) of the filtered list cut at its end |
| MockAlerts.PagesAdjacent | api/views/mock_alert_view.py:63-65 | consecutive pages follow on from each other with nothing skipped or repeated |
| MockAlerts.CloseAll | api/views/mock_alert_view.py:130-135 | batch close closes each alert a requested id finds, keeps every other alert, and keeps the ids |
| MockAlerts.TargetedUnique | api/views/mock_alert_view.py:132 | with unique ids an alert is targeted exactly when its id was requested |
| MockAlerts.CloseAllUnique | api/views/mock_alert_view.py:130-135 | with unique ids, after batch close an alert is closed exactly when it was closed already or its id was requested |
| MockAlerts.NewAlert | api/views/mock_alert_view.py:223-261 | a new alert has a fresh id above all others, severity equal to riskLevel, the requested or default status and title, and a string timestamp; creation fails exactly on a truthy non-string timestamp |
| MockRecords.Patch | api/views/mock_alert_view.py:288-300 | a key the request holds takes the request's value, any other keeps its current one |
| MockAlerts.Patched | api/views/mock_alert_view.py:288-300 | title, status, owner, description and ruleName take the request's value exactly when it holds the key and are kept otherwise; riskLevel goes to both riskLevel and severity; id, createTime, timestamp, entities and details never change |
| MockAlerts.UpdateOutcome | api/views/mock_alert_view.py:279-306 | an unknown id answers not-found with the list unchanged; otherwise only that alert changes, it is the patched alert, and the answer is that alert |
| MockAlerts.MockAlertStore.Seeded | api/views/mock_alert_view.py:17 | the store starts as a copy of the fixture alerts |
| MockAlerts.MockAlertStore.FindAlert | api/views/mock_alert_view.py:132 | the scan returns the position of the first alert whose id equals the value |
| MockAlerts.MockAlertStore.BatchClose | api/views/mock_alert_view.py:123-148 | the list after batch close is CloseAll of the old list and the closed count is the number of requested ids that find an alert |
| MockAlerts.MockAlertStore.OpenAlert | api/views/mock_alert_view.py:154-171 | a found alert gets status "open" and the answer is 200; otherwise 404 and the list is unchanged |
| MockAlerts.MockAlertStore.CreateAlert | api/views/mock_alert_view.py:223-273 | the new alert is put first; on failure the list is unchanged |
| MockAlerts.MockAlertStore.UpdateAlert | api/views/mock_alert_view.py:279-306 | the answer and the new list are the specified update outcome |
| MockAlerts.CloseStep | api/views/mock_alert_view.py:131-135 | one requested id that finds an alert closes exactly that alert |
| MockAlerts.CloseStepMissing | api/views/mock_alert_view.py:131-135 | a requested id that finds no alert changes nothing |
| MockIncidents.Ids | api/views/mock_incident_view.py:55 | the ids of the incidents, position for position |
| MockIncidents.CloseAll | api/views/mock_incident_view.py:26-31 | batch close closes each incident a requested id finds, keeps every other incident, and keeps the ids |
| MockIncidents.TargetedUnique | api/views/mock_incident_view.py:28 | with unique ids an incident is targeted exactly when its id was requested |
| MockIncidents.CloseStep | api/views/mock_incident_view.py:27-31 | one requested id that finds an incident closes exactly that incident |
| MockIncidents.CloseStepMissing | api/views/mock_incident_view.py:27-31 | a requested id that finds no incident changes nothing |
| MockIncidents.NewIncident | api/views/mock_incident_view.py:55-70 | a new incident has a fresh id above all others (73501 for an empty list), eventId equal to its id, name and fullName both the title, and the requested or current occurrence time |
| MockIncidents.PatchOptional | api/views/mock_incident_view.py:103-114 | a key the incident may lack is set exactly when the request holds it |
| MockIncidents.Updated | api/views/mock_incident_view.py:95-120 | an update keeps id, eventId and severity, assigns title to name and fullName, keeps a truthy createTime or falls back to occurrenceTime, stamps updateTime with now, and sets affectedAssets to the request's value or 4 |
| MockIncidents.ViewOf | api/views/mock_incident_view.py:123-140 | the answer carries the id as both id and eventId and the name as both name and title |
| MockIncidents.UpdateTwice | api/views/mock_incident_view.py:95-120 | the same update at the same time applied twice changes nothing more than once |
| MockIncidents.MockIncidentStore.Seeded | api/views/mock_incident_view.py:13 | the store starts as a copy of the fixture incidents |
| MockIncidents.MockIncidentStore.FindIncident | api/views/mock_incident_view.py:28 | the scan returns the position of the first incident whose id equals the value |
| MockIncidents.MockIncidentStore.BatchClose | api/views/mock_incident_view.py:19-44 | the list after batch close is CloseAll of the old list and the closed count is the number of requested ids that find an incident |
| MockIncidents.MockIncidentStore.CreateIncident | api/views/mock_incident_view.py:50-81 | the new incident is built from the request and put first |
| MockIncidents.MockIncidentStore.UpdateIncident | api/views/mock_incident_view.py:87-149 | an unknown id answers not-found with the list unchanged; otherwise only that incident changes, to its updated form, and the answer is its view |
| MockDashboard.SourceIp | api/views/mock_dashboard_view.py:82-85 | the source IP is the name of the first entity of type "ip", or "N/A" when there is none |
| MockDashboard.OpenAlerts | api/views/mock_dashboard_view.py:73 | the open alerts are exactly the fixture alerts whose status is not "closed" |
| MockDashboard.AlertRows | api/views/mock_dashboard_view.py:76-89 | each picked alert becomes one dashboard row, in order |
| MockDashboard.RecentOpenAlerts | api/views/mock_dashboard_view.py:66-127 | a limit int() rejects fails the request; otherwise total is the number of rows and a non-negative limit bounds it |
| MockDashboard.RecentOpenAlertsChoice | api/views/mock_dashboard_view.py:88-119 | with at least limit open alerts the answer is the rows of the first limit of them in order; with fewer it is the first limit default rows, never a mix |
| MockDashboard.RecentOpenAlertsOpen | api/views/mock_dashboard_view.py:73-89 | every row of a non-default answer comes from an alert that is not closed |
| MockDashboard.CvssTenths | api/views/mock_dashboard_view.py:149 | the CVSS score is 9.8 exactly for critical, 8.8 exactly for high and 6.5 otherwise (in tenths) |
| MockDashboard.VulnerabilityRowOf | api/views/mock_dashboard_view.py:146-156 | a vulnerability has a row exactly when its discovery date is a string; the row carries the date with " 00:00:00", its CVSS score and its risk level |
| MockDashboard.OpenVulnerabilities | api/views/mock_dashboard_view.py:140-143 | the open vulnerabilities are exactly those whose status is neither fixed nor ignored |
| MockDashboard.VulnerabilityRows | api/views/mock_dashboard_view.py:146-156 | the rows exist exactly when every picked date is a string, one row per vulnerability in order |
| MockDashboard.RecentOpenVulnerabilities | api/views/mock_dashboard_view.py:133-194 | it fails exactly when int(limit) raises or a picked open vulnerability's date is not a string; a successful answer has total equal to its row count, at most limit rows for a non-negative limit, and every row not a default one comes from an open vulnerability |
| MockDashboard.RecentOpenVulnerabilitiesChoice | api/views/mock_dashboard_view.py:137-190 | with at least limit open vulnerabilities the rows of the first limit in source order, with fewer exactly defaults[:limit], never a mix; failure exactly when a picked date is not a string |

## Left out

- HTTP and the network:
  - `_LightRAGClient._request` is an oracle reply: it either fails, returns non-JSON or returns a JSON body. The tenacity retry inside it is folded into that one reply.
  - The SecMaster and toolkit HTTP calls (`_send_request`, `_parse_response`), `wrap_http_auth_headers` signing and the front-end axios wrappers are not part of this model.
- Concurrency: `EventGraphService._lock`, `IncidentGraphIntelligenceJob._lock` and the APScheduler registration are not modelled. Each graph build and each sweep is a sequential call.
- Clocks:
  - `time.monotonic` and `time.sleep` become the model's millisecond clock, and every request takes at least one millisecond.
  - Poll and timeout settings are whole seconds.
  - `datetime.now()` in the mock create and update views is a parameter.
- Randomness: `random.sample` in the prompt endpoint takes its choices as a parameter, a list of draws.
- SQL and the ORM: the statistics queries are not modelled, and each shaping loop receives the rows its query returned. Sessions, commit and rollback become "the table is unchanged on error".
- `Incident.to_dict` is not modelled; the upsert returns the stored row, not its dict with `extend_properties` parsed back from JSON.
- Severity.SeverityToNumber: the severity map's JavaScript prototype keys are not modelled, so `severityToNumber("constructor")` gives no level here, where the source reads `Object.prototype.constructor` and returns that function.
- Floating point: the JSON value has no float, so a request or reply carrying a fractional number (a `limit` of 2.5, which `int()` reads as 2; a float count; a float CVSS score) is outside every member that takes a value. In particular:
  - the rounded percentages of the statistics service are not modelled;
  - the dashboard's CVSS scores are kept in tenths (98, 88, 65);
  - `numberToSeverity` is modelled on integers only, so a non-integer number is not covered.
- GraphScheduler.Step, GraphScheduler.SyncSettles, GraphScheduler.RefreshApplied: `list_incident_alert_snapshots` and `update_graph_bundle` are not part of this model, and `upsert_incident` (api/models/incident.py:74-122) stores no `alert_list` column. Step assumes two behaviours of the store: a completed upsert makes the next snapshot report the remote `alert_list`, and a completed `update_graph_bundle` sets `has_graph_data` and `has_graph_summary` from the truthiness of the bundle's two halves. The settling these members prove holds only if the store behaves so.
- ToolkitEngine.BuildHeaders: a "headers" section or an auth "headers" that is not a dict reads as empty, and an "auth" that is not a dict reads as no auth, because the headers are modelled as a string-keyed dict. In the source `dict.update` applies a list of pairs and raises on other non-dicts, `.get` on a non-dict auth raises, and a non-string `key_name` becomes a non-string header name, which the model cannot hold; a non-string `key_name` reads as "X-API-Key" here.
- ToolkitEngine.BuildJsonBody, ToolkitEngine.BuildRequestBody: dicts are values, so a dict shared between a target and the parameters is not aliased. In the source `body[target] = params.get(...)` stores the very dict held in the parameters, and `_set_nested_field` then assigns into it in place, so a dotted target such as "a.y" also changes another target "b" and the parameter holding that dict. The model rebuilds only the path it sets.
- ToolkitEngine.ApplyTransform: the "to_float" transform is treated like an unknown transform, because floating point is not modelled.
- Cryptography: AES encryption itself, password hashing and JWT are not modelled. Only the block padding `add_to_16` is.
- Files and configuration:
  - `_load_prompt_from_json`, `ai_prompt_view._load_config` and the file-reading half of `load_toolkit_config` are not modelled.
  - Configuration is given as values.
- JSON:
  - `str()` of a value that `json.dumps` cannot write is not modelled; every Value can be written.
  - String escapes in `repr` are not modelled.
  - `JSON.parse` of browser storage is the slot's parsed value or "unparsable".
- CommonUtils.ParseDateTimeWithTimezone: text that is not in the SecMaster format goes to `datetime.fromisoformat`. That fallback is kept as an uninterpreted result (`IsoFallback`), not parsed.
- Text: whitespace is the six ASCII characters space, tab, line feed, carriage return, vertical tab and form feed, which Python's `strip()` and JavaScript's `trim()` both remove. Python's `strip()` also removes the separators \x1c to \x1f, and both remove Unicode spaces; those are kept here. Case mapping is ASCII only, and `int()` reads ASCII digits only.
- AsmApi.ApiField: the field map is a plain JavaScript object, so a field named after an `Object.prototype` member ("constructor", "toString", "__proto__") finds that member, not the field name; the model sends such a field under its own name. Other non-string fields are coerced to their `String` form, as in the source.
- AsmApi.StatusCondition: a status whose `String` form is an `Object.prototype` member name (such as "constructor") finds that member in the status map; the model sends the status unchanged.
- AsmApi.CloseReasonOf: a category whose `String` form is an `Object.prototype` member name (such as "constructor") finds that member in the close-reason map; the model sends the category unchanged.
- StatsShaping.FoldDecisions: the loop is modelled with the correction under Findings (each category adds the counts of its rows). The code as written assigns, so rows (TT, 3) and (TP, 2) report TP 2 there and TP 5 here; the as-written fold is CountsAsWritten, exhibited by AsWrittenLosesTp.
- StatsShaping.AiDecisionAnalysis: the endpoint reports the corrected counts of FoldDecisions, not those of the assigning fold as written; the two agree whenever no category other than Empty receives two groups (AsWrittenWhenDistinct).
- Browser: the `isBrowser()` server-side-rendering branch of `recentCloseComments.js` is not modelled (a browser is assumed), nor are storage write errors.
- Mock views:
  - The detail, statistics, associate, threat-intelligence and associated-alert views only return fixtures, so they are not modelled.
  - An `alertIds` or `incidentIds` that is not a list is not covered.
  - Associated entities are modelled as dicts only, so a non-dict item is not covered.
  - A dict item without a "type" or "name" key raises `KeyError` in the source. Here the lookup reads as missing instead.
- Front end: the UI components, date formatting in `getASMItems` and `transformAlertData` are not part of this model.

## Findings

| source | as written | input that shows it | evidently intended | confidence | as-written member | corrected member |
|---|---|---|---|---|---|---|
| api/controllers/stats_service.py:887-892 | a TP, TT, FP or FN group sets its category to its own count, so a TT group and a TP group overwrite each other in `category_counts['TP']`, and `total_decisions` then disagrees with the number of alerts | query rows (TT, 3) and (TP, 2) | TP counts 5 alerts, and `total_decisions` is 5 like the alerts counted | medium, not executed | StatsShaping.AsWrittenLosesTp | StatsShaping.CountsAddedTotal |
