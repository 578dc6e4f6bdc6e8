# codebuddy2api, modelled in Dafny

codebuddy2api is a small proxy server. It accepts OpenAI-style chat requests,
reshapes them for the CodeBuddy backend, sends them with a credential from a
local store, and turns the backend's event stream back into OpenAI-style
replies. This project models its sequential core and proves properties of
that model:

- **Message translation and request shaping** (`ApiMessages`, `ApiRequest`,
  `ApiStream`, `Keywords`). The translator drops upstream error replies, pads
  a lone user message, maps the `tool` role to `user`, keeps tool blocks
  structured and repairs their ids, flattens any other content to one
  string, and rewrites competitor names in system text. The model also
  covers the header set, the request body defaults and the per-line loop
  over the backend's server-sent events.
- **The router** (`Router`, `ToolMerge`, `RouterFold`). The pass-through
  rewrite forces `stream` to true, pads, and applies the keyword rewrite. In
  fold mode, the `data:` chunks are collected and folded into one
  `chat.completion`. The credential listing shows only a token preview.
- **The credential store** (`TokenManager`). It loads the `*.json` files that
  carry a `bearer_token`. It hands credentials out round-robin, each one
  serving R calls in a row. Because loading sets the index to -1, the first
  pick is the *last* credential. It can also add a credential file and
  reload.
- **Usage counters** (`UsageStats`): two per-name counters that only grow, in
  a process-wide singleton.
- **Authentication** (`Auth`): no password configured gives 500, a wrong
  token gives 403, and otherwise the token is accepted.
- **Configuration** (`Config`): the fallback `.env` reader, the getters with
  their defaults, and the comma-separated model list.

`Json` models Python values with dicts kept as ordered key lists, plus the
dynamic operations the code relies on (`get`, `[]`, `in`, `+`, `or`,
iteration), each failing where Python would raise. `Strings` provides
`replace`, `split`, `strip` and `str(int)`. `Wrappers` provides `Option`,
`Result` and two generic loops that stop at the first failure.

The parts the source writes as loops over mutable state are methods, each
proved against a specification function:

- the filter and convert loops;
- the SSE reader;
- the rewrite loop;
- the chunk collection and merge;
- `CodeBuddyTokenManager` and `UsageStatsManager`, which are classes whose
  fields the methods update;
- `Config.Environment.LoadEnvFile`, which writes the `os.environ` map.

Where the source calls something this model cannot see, that thing becomes a
parameter:

- `json.loads`, `json.dumps` and `str` of a container form a `Codec` of
  arbitrary functions;
- `uuid4` and `secrets.token_hex` become id suppliers;
- `time.time()` becomes `now`;
- the rotation count becomes `r`;
- the credential directory becomes a `Dir` listing with the parse result of
  each file;
- whether the new credential file could be written becomes `written`, and
  the listing after the write becomes `after`.

## Model

| member | source | states |
|---|---|---|
| ApiMessages.FilterMessages | src/codebuddy_api_client.py:28-36 | the filter loop returns exactly the messages that `Filtered` keeps |
| ApiMessages.FilteredMembers | src/codebuddy_api_client.py:28-36 | a message is kept iff it is in the input and is not an assistant message whose string content holds "Error: API error" or "API error:" |
| ApiMessages.FilteredAppend | src/codebuddy_api_client.py:28-36 | filtering distributes over concatenation, so the kept messages stay in their original order |
| ApiMessages.FilteredKeepsClean | src/codebuddy_api_client.py:28-36 | with no upstream error replies nothing is dropped |
| ApiMessages.DetectToolContent | src/codebuddy_api_client.py:70-74 | the scan reports tool content iff some item is a dict of type `tool_result` or `tool_use` |
| ApiMessages.ToolTag | src/codebuddy_api_client.py:89 | a generated id is `tool_` followed by 8 hex digits: 13 characters, all valid id characters |
| ApiMessages.ProcessContent | src/codebuddy_api_client.py:80-134 | the block loop processes each block in order and stops at the first one that raises |
| ApiMessages.FlattenParts | src/codebuddy_api_client.py:145-155 | one text part per item, in order: the `text` of text blocks, the JSON dump of other dicts, strings verbatim, `str` of anything else |
| ApiMessages.ConvertMessage | src/codebuddy_api_client.py:46-177 | the per-message body computes `ConvertOne`: the mapped role, structured or flattened content, and the system-text rewrite |
| ApiMessages.ConvertAll | src/codebuddy_api_client.py:46-179 | the message loop converts the filtered messages in order and stops at the first failure |
| ApiMessages.ConvertMessages | src/codebuddy_api_client.py:23-179 | the whole translation: filter, pad, then convert |
| ApiMessages.ConvertShape | src/codebuddy_api_client.py:38-44 | translation succeeds iff every kept message converts. The output is one message per kept message, in order, preceded by exactly one `{system, "You are a helpful assistant."}` iff the filtered list is a single `user` message |
| ApiMessages.ConvertOneRole | src/codebuddy_api_client.py:47-54 | a converted message carries the role `tool`→`user`, missing→`user`, any other role unchanged, plus a content field |
| ApiMessages.StructuredKeepsLength | src/codebuddy_api_client.py:80-134 | structured content keeps one output block per input block |
| ApiMessages.SinglePiecesCheck | src/codebuddy_api_client.py:93 | the character-by-character id check accepts a string iff all its characters are in `[a-zA-Z0-9_-]` |
| ApiMessages.ToolResultIdValid | src/codebuddy_api_client.py:84-104 | when the id fields give a string or nothing, a `tool_result` leaves with a non-empty id made only of `[a-zA-Z0-9_-]`; a valid given string id is kept |
| ApiMessages.ToolResultIdNonString | src/codebuddy_api_client.py:86-95 | a truthy id that is not a string never becomes one: a number or boolean raises TypeError, a list starting with a non-string raises AttributeError, and a list of alphanumeric strings or a dict with alphanumeric keys is sent on unchanged |
| ApiMessages.ListIdSentAsList | src/codebuddy_api_client.py:86-95 | as written, the list id `["ab"]` is sent on as a list, while the intended id is a fresh `tool_` string (see Findings) |
| ApiMessages.IntendedToolResultId | src/codebuddy_api_client.py:86-95 | corrected: the id always matches `[a-zA-Z0-9_-]+`; a valid given string id is kept, anything else is replaced by a generated id |
| ApiMessages.IntendedIdAgrees | src/codebuddy_api_client.py:86-95 | for string or missing ids the code as written already returns the corrected id |
| ApiMessages.ToolUseIdKept | src/codebuddy_api_client.py:105-115 | a `tool_use` leaves with a truthy id, and a truthy id it had is kept |
| ApiMessages.UntypedTextBecomesToolResult | src/codebuddy_api_client.py:121-130 | an item with `text` and a missing or falsy `type` becomes a `tool_result` holding that text under a fresh id |
| ApiMessages.OtherBlocksUntouched | src/codebuddy_api_client.py:116-134 | text blocks and non-dict items pass through unchanged |
| ApiMessages.FlattenStrings | src/codebuddy_api_client.py:144-156 | a list of strings flattens to their concatenation in order |
| ApiMessages.FlattenFails | src/codebuddy_api_client.py:147-156 | flattening fails iff some text block's `text` is not a string |
| ApiMessages.FlatTextRewriteRule | src/codebuddy_api_client.py:160-175 | flattened text of any other role is sent as it is; system text is rewritten and then has no "Claude" and no "Anthropic" |
| ApiMessages.PlainMessagesConvert | src/codebuddy_api_client.py:23-179 | messages with missing, null or string content always translate |
| Keywords.RewriteUnchanged | src/codebuddy_api_client.py:163-167 | text holding none of the five phrases is unchanged |
| Keywords.RewriteRemovesNames | src/codebuddy_router.py:87-95 | the rewritten text contains neither "Claude" nor "Anthropic", whatever the input |
| ApiRequest.OrElse | src/codebuddy_api_client.py:206-209 | `given or fallback`: a non-empty given value wins |
| ApiRequest.NamesDistinct | src/codebuddy_api_client.py:194-219 | the header names are pairwise distinct |
| ApiRequest.HeadersSpec | src/codebuddy_api_client.py:194-220 | `Authorization` is "Bearer " + token; supplied ids are used verbatim; dash-less fallbacks hold no dash; the user id falls back to the fixed default |
| ApiRequest.FixedHeaders | src/codebuddy_api_client.py:194-220 | each of the 18 fixed headers carries its literal value: `Host` and `X-Domain` "www.codebuddy.ai", `Accept` and `Content-Type` "application/json", the `x-stainless-*` fingerprint, `X-Agent-Intent` "craft", the `X-IDE-*` identity, `User-Agent` and `X-Product` "SaaS" |
| ApiRequest.BaseBodySpec | src/codebuddy_api_client.py:267-276 | the eight fixed keys in order, with the model, the messages, `stream`, `agent` "cli", and each of `temperature` (1.0), `response_format` (text), `max_tokens` (32000) and `top_p` (1.0) taken from the keyword arguments or defaulted |
| ApiRequest.ExtrasSpec | src/codebuddy_api_client.py:279-289 | `tools` and `tool_choice` are present iff truthy and are then passed through; `stream_options` is present iff streaming, and then the given value or `include_usage` true |
| ApiRequest.PayloadSpec | src/codebuddy_api_client.py:267-289 | the full body: the eight fixed keys in order with their values or defaults, followed by `tools`, `tool_choice` and `stream_options` under the conditions and with the values of `ExtrasSpec` |
| ApiRequest.Prepare | src/codebuddy_api_client.py:242-294 | a missing or empty bearer token is a ValueError, a translation failure propagates, truthy `tools` without a length raise TypeError at the log line; it succeeds exactly otherwise, with the URL, the bearer header and the body built from the translated messages |
| ApiStream.ReadLine | src/codebuddy_api_client.py:339-358 | one line gives the events and the stop flag that `LineStep` defines |
| ApiStream.ReadChunk | src/codebuddy_api_client.py:338-358 | the line loop of one chunk continues the scan of the lines before it |
| ApiStream.ReadStream | src/codebuddy_api_client.py:310-358 | the generator's events for a status, an error text and the body chunks |
| ApiStream.ChunkLinesPrefix | src/codebuddy_api_client.py:334-338 | each non-empty chunk adds its own `split('\n')` lines; empty chunks add nothing |
| ApiStream.StoppedAbsorbs | src/codebuddy_api_client.py:341-352 | once the stream has ended, no later line changes the events |
| ApiStream.DoneEndsStream | src/codebuddy_api_client.py:341-342 | after a `[DONE]` data line nothing more is yielded |
| ApiStream.ErrorEndsStream | src/codebuddy_api_client.py:346-352 | a dict with `error` is yielded as one error event and ends the stream |
| ApiStream.ErrorOnlyLast | src/codebuddy_api_client.py:346-352 | an error event can only be the last event, and only when the stream ended |
| ApiStream.SkippedLines | src/codebuddy_api_client.py:339-358 | lines that do not start with `data: `, and data lines that do not decode, yield nothing |
| ApiStream.OrdinaryLinesPassThrough | src/codebuddy_api_client.py:343-355 | without `[DONE]` or error objects the events are the decoded data lines, in order |
| ApiStream.BadStatusOneError | src/codebuddy_api_client.py:310-330 | a non-200 reply yields exactly one error event with the status and the error text |
| Router.StreamingCopy | src/codebuddy_router.py:73-74 | the copy succeeds iff the body is a dict, and then has `stream` true |
| Router.RewriteBlocks | src/codebuddy_router.py:104-106 | each block is passed through the text-block rewrite, keeping length and order |
| Router.RewriteContent | src/codebuddy_router.py:104-106 | the in-place block loop computes `RewriteBlocks` |
| Router.PadPayload | src/codebuddy_router.py:76-84 | the padding step computes `Padded` |
| Router.RewriteOne | src/codebuddy_router.py:99-106 | the loop body for one message computes `RewriteMessage` |
| Router.RewriteMessages | src/codebuddy_router.py:98-106 | the rewrite loop computes `RewriteAll`, failing on a non-dict message |
| Router.RewriteRequest | src/codebuddy_router.py:73-106 | the whole rewrite computes `OutgoingPayload` |
| Router.OnlyMessagesChange | src/codebuddy_router.py:76-106 | padding and rewriting change no key other than `messages` |
| Router.OutgoingStreams | src/codebuddy_router.py:73-74 | the outgoing payload exists only for a dict body and always has `stream` true; a list raises TypeError, any other value AttributeError |
| Router.PreferenceFromOriginalBody | src/codebuddy_router.py:137 | the stream preference is the truthiness of the client's own `stream` (false when absent), while the outgoing copy always has `stream` true |
| Router.PaddingRule | src/codebuddy_router.py:77-84 | the system message is prepended iff `messages` is exactly one dict with role `user`; otherwise the list is left as it is |
| Router.MessageKeysKept | src/codebuddy_router.py:98-106 | a message keeps its keys in order, and only `content` may change |
| Router.MessageContentRule | src/codebuddy_router.py:99-106 | string content is rewritten whatever the role; list content keeps its length with each block rewritten; other content is untouched |
| Router.BlockRewriteRule | src/codebuddy_router.py:104-106 | a `text` block has its text rewritten (a missing text becomes ""); other blocks are unchanged |
| Router.RewriteAllRule | src/codebuddy_router.py:98-106 | the rewrite succeeds iff every message is a dict, and keeps their number and order |
| Router.RewrittenHasNoNames | src/codebuddy_router.py:87-106 | a rewritten string content names neither "Claude" nor "Anthropic"; a list content keeps its length and the string text of every `text` block names neither |
| Router.PreviewRule | src/codebuddy_router.py:313 | a token longer than 14 characters shows its first 10 characters, "..." and its last 4 (17 characters); any other string shows "Invalid Token" |
| Router.ListCredentials | src/codebuddy_router.py:304-317 | the listing loop builds one safe entry per credential and stops at the first one that raises |
| Router.ListingRule | src/codebuddy_router.py:306-315 | one entry per credential, in order, with its position and whether it has a token |
| ToolMerge.FindSlot | src/codebuddy_router.py:218 | the slot found is the first one whose index equals the key under Python equality, and None means no slot matches |
| ToolMerge.CopyExtrasLoop | src/codebuddy_router.py:235-237 | the extra-key loop computes `CopyExtras` |
| ToolMerge.MergeFragment | src/codebuddy_router.py:213-237 | one fragment's merge computes `ToolCallStep` |
| ToolMerge.MergeFragments | src/codebuddy_router.py:213-237 | the fragment loop computes `ToolCalls` |
| ToolMerge.ToolCallsAppend | src/codebuddy_router.py:206-237 | merging two runs of fragments one after the other equals merging their concatenation |
| ToolMerge.StepOrder | src/codebuddy_router.py:218-222 | one fragment keeps the keys distinct and adds a new key at the end |
| ToolMerge.FirstAppearanceOrder | src/codebuddy_router.py:218-242 | the slots come out in first-appearance order of their index |
| ToolMerge.NotSortedByIndex | src/codebuddy_router.py:242 | index 1 arriving before index 0 gives slots in the order 1, 0 |
| ToolMerge.MergeIntoRule | src/codebuddy_router.py:225-237 | one merge appends the arguments, keeps the last truthy name and overwrites the extras it names |
| ToolMerge.SlotHistory | src/codebuddy_router.py:213-237 | each index's slot depends only on the fragments filed under that index |
| ToolMerge.PerIndexArgs | src/codebuddy_router.py:227-228 | a slot's arguments are the pieces filed under its index, concatenated in arrival order |
| ToolMerge.PerIndexName | src/codebuddy_router.py:231-232 | a slot's name is the last non-empty name filed under its index |
| ToolMerge.PerIndexExtra | src/codebuddy_router.py:235-237 | each extra key of a slot (`id`, `type`, …) holds the last value written to it |
| ToolMerge.SlotForNoneStays | src/codebuddy_router.py:214-222 | an index with no slot afterwards had none before and no fragment was filed under it |
| ToolMerge.NullIndexIgnored | src/codebuddy_router.py:214 | a fragment without an index, or with a null one, changes nothing |
| RouterFold.CollectStepRule | src/codebuddy_router.py:172-179 | a line is kept iff it starts with `data: `, does not end with `[DONE]`, and decodes to a value containing `choices` |
| RouterFold.CollectedAppend | src/codebuddy_router.py:168-182 | collection is compositional over runs of lines, so arrival order is kept |
| RouterFold.SkippedLine | src/codebuddy_router.py:172-182 | a line that contributes nothing can be dropped without changing the result |
| RouterFold.DoneDoesNotStop | src/codebuddy_router.py:172 | a `[DONE]` line is skipped and does not end the collection |
| RouterFold.ErrorEventSkipped | src/codebuddy_router.py:178 | an error event without `choices` is skipped and is not reported |
| RouterFold.ScalarPayloadFails | src/codebuddy_router.py:178 | a data payload that decodes to a number, boolean or null fails the reply with a TypeError |
| RouterFold.CollectLine | src/codebuddy_router.py:172-182 | one line of the collection loop |
| RouterFold.CollectChunk | src/codebuddy_router.py:171-182 | the lines of one received chunk |
| RouterFold.CollectChunks | src/codebuddy_router.py:165-182 | the collection loop computes the chunks `Collected` keeps |
| RouterFold.MergeAllRule | src/codebuddy_router.py:206-237 | string content becomes the start content followed by every chunk's text; list content becomes the start list extended by the items of every chunk's content; the slots are the merge of all the fragments |
| RouterFold.ListContentExtends | src/codebuddy_router.py:201-210 | first-chunk content `["x"]` and a second chunk `"ab"` merge to `["x", "x", "a", "b"]` |
| RouterFold.ListContentOnce | src/codebuddy_router.py:201-210 | corrected: the same chunks merge to `["x", "a", "b"]`, each chunk counted once |
| RouterFold.MergeChunk | src/codebuddy_router.py:207-237 | the body of `for chunk in all_chunks`, with `+=` as string concatenation or list extension |
| RouterFold.MergeChunks | src/codebuddy_router.py:206-237 | the chunk loop computes `MergeAll` |
| RouterFold.FoldChunks | src/codebuddy_router.py:185-258 | the step-by-step fold computes `FoldSeeded`; with `seedFirst` it is the code as written |
| RouterFold.NonStreamingReply | src/codebuddy_router.py:165-258 | collect, then fold, counting each chunk's content once (see Findings) |
| RouterFold.ChoiceShape | src/codebuddy_router.py:245-249 | the final choice has the message, `finish_reason` "stop" and no `delta`; its other keys are unchanged |
| RouterFold.MessageShape | src/codebuddy_router.py:240-246 | the message has the merged content, the tool calls iff some were merged, and the delta's role or else "assistant" |
| RouterFold.BaseMarks | src/codebuddy_router.py:187-189 | the base is the first chunk with `object` "chat.completion" and `created` set to now |
| RouterFold.FoldOnBase | src/codebuddy_router.py:185-252 | the reply is the marked first chunk, with at most its first choice replaced |
| RouterFold.FoldMarks | src/codebuddy_router.py:185-258 | the reply is the error object iff no chunk was collected; otherwise it is marked as a completion |
| RouterFold.NoResponseIff | src/codebuddy_router.py:185-258 | the reply is "No valid response received from CodeBuddy" iff no chunk was collected |
| RouterFold.FoldShape | src/codebuddy_router.py:192-249 | when the first chunk opens with a delta, the first choice carries the final message and the other choices are kept |
| RouterFold.FoldContent | src/codebuddy_router.py:202-240 | as written: the content is the first delta's content followed by every chunk's content, the first included |
| RouterFold.IntendedContent | src/codebuddy_router.py:201-240 | corrected: every chunk's content counted once, as the concatenated text when the first delta's content is a string or empty, and as every chunk's items when it is a list |
| RouterFold.MergeFromRule | src/codebuddy_router.py:201-237 | the slots are the merge of every chunk's fragments; string content is every chunk's text and list content every chunk's items, the first chunk's twice as written and once corrected |
| RouterFold.MergeChunkTools | src/codebuddy_router.py:211-237 | the tool-call half of the chunk loop body computes `SlotsStep` |
| RouterFold.FoldToolCalls | src/codebuddy_router.py:211-242 | the reply's tool calls are the per-index merge of all fragments, present iff some slot exists |
| RouterFold.FoldRole | src/codebuddy_router.py:246 | the role is the first delta's role, or "assistant" |
| RouterFold.NoDeltaNoMerge | src/codebuddy_router.py:196 | a first choice without `delta` leaves the reply as the marked first chunk |
| RouterFold.DoubledFirstContent | src/codebuddy_router.py:202-210 | one chunk with content "a" folds to "aa" as written and to "a" when corrected |
| TokenManager.Basename | src/codebuddy_token_manager.py:83 | the basename is a suffix of the path that holds no '/' |
| TokenManager.BasenameJoin | src/codebuddy_token_manager.py:83-104 | a slash-free file name joined to a directory has itself as basename |
| TokenManager.KeptAppend | src/codebuddy_token_manager.py:42-55 | loading filters the listing in order, part by part |
| TokenManager.KeptOne | src/codebuddy_token_manager.py:42-55 | one entry loads iff it is globbed, parses, and contains `bearer_token` |
| TokenManager.KeptMembers | src/codebuddy_token_manager.py:41-55 | a credential is loaded iff it comes from a qualifying entry; every loaded record has `bearer_token` |
| TokenManager.PyIndex | src/codebuddy_token_manager.py:79 | Python's negative indexing: -1 is the last position |
| TokenManager.Next | src/codebuddy_token_manager.py:63-80 | no pick iff there are no credentials; the pick is in range and afterwards 1 <= usage <= max(R,1) |
| TokenManager.NextRule | src/codebuddy_token_manager.py:67-80 | an index past the end resets to 0 with usage 0; usage >= R advances the index by one modulo n; the pick is `credentials[index]` and usage grows by one |
| TokenManager.Run | src/codebuddy_token_manager.py:59-90 | k successive calls give k picks, all in range |
| TokenManager.FreshRun | src/codebuddy_token_manager.py:32-80 | from a freshly loaded store, call j picks position (j / R + n - 1) mod n |
| TokenManager.Schedule | src/codebuddy_token_manager.py:32-79 | the first R picks after loading are the last credential, then the rotation goes on cyclically |
| TokenManager.TwoByTwo | src/codebuddy_token_manager.py:32-80 | two credentials A, B and R = 2: five calls give B, B, A, A, B |
| TokenManager.AlwaysRotates | src/codebuddy_token_manager.py:73-76 | with R <= 0 every call rotates, so with two or more credentials consecutive picks differ |
| TokenManager.FileNameFor | src/codebuddy_token_manager.py:98-102 | the name ends in ".json"; it defaults to `codebuddy_token_{n+1}.json`; a given name gets ".json" appended iff it lacks it |
| TokenManager.DefaultNameGlobbed | src/codebuddy_token_manager.py:41-99 | the default name is one the glob picks up again |
| TokenManager.Record | src/codebuddy_token_manager.py:106-110 | the record has exactly the keys `bearer_token`, `user_id`, `created_at`, in that order, with the given values |
| TokenManager.AddedIsLoaded | src/codebuddy_token_manager.py:104-117 | a written file that reads back as the record loads as a credential at its path |
| TokenManager.CodeBuddyTokenManager.constructor | src/codebuddy_token_manager.py:18-27 | starts at index 0 and usage 0 and loads, ending at index -1 with the listing's credentials |
| TokenManager.CodeBuddyTokenManager.LoadAllTokens | src/codebuddy_token_manager.py:29-57 | the credentials become those of the listing; the index is -1 and the usage count is not reset |
| TokenManager.CodeBuddyTokenManager.GetNextCredential | src/codebuddy_token_manager.py:59-90 | the counters follow `Next`; credentials are never changed; the result is None iff there are none; one usage is recorded against the chosen file's basename, and nothing else in the counters changes |
| TokenManager.CodeBuddyTokenManager.GetAllCredentials | src/codebuddy_token_manager.py:92-94 | the records of the credentials, in order |
| TokenManager.CodeBuddyTokenManager.AddCredential | src/codebuddy_token_manager.py:96-121 | writes the record to the derived path; on success reloads and returns true; on failure returns false and changes nothing |
| UsageStats.Bump | src/usage_stats_manager.py:21-29 | the key's count grows by exactly one (absent counts as 0), every other key is unchanged |
| UsageStats.BumpAllCount | src/usage_stats_manager.py:21-29 | after a run of recordings each count has grown by the number of times its name was recorded |
| UsageStats.BumpAllMonotone | src/usage_stats_manager.py:7-37 | counts never decrease, and strictly grow for recorded names |
| UsageStats.UsageStatsManager.constructor | src/usage_stats_manager.py:17-19 | the first construction starts with both maps empty |
| UsageStats.UsageStatsManager.RecordModelUsage | src/usage_stats_manager.py:21-24 | bumps the model's count and leaves the credential map unchanged |
| UsageStats.UsageStatsManager.RecordCredentialUsage | src/usage_stats_manager.py:26-29 | bumps the credential's count and leaves the model map unchanged |
| UsageStats.UsageStatsManager.GetStats | src/usage_stats_manager.py:31-37 | the snapshot equals the current maps, and nothing changes |
| UsageStats.Singleton.New | src/usage_stats_manager.py:12-19 | the first call creates a manager with empty maps; later calls return the same object, with its counters intact |
| Auth.Authenticate | src/auth.py:11-24 | an unset or empty password gives 500 whatever the token; otherwise a different token gives 403 and an equal token is returned unchanged |
| Auth.UnconfiguredIgnoresToken | src/auth.py:13-18 | without a password every token gets the same 500 |
| Auth.OnlyPasswordPasses | src/auth.py:20-24 | with a password, a token passes iff it equals the password; any other token gets 403 |
| Config.FindChar | config.py:19 | the position of the first '=' (or the length, when there is none) |
| Config.ParseLineRule | config.py:16-19 | a line gives an entry iff it is stripped non-empty, not a comment, and holds '='; key + "=" + value is the stripped line, with no '=' in the key |
| Config.FirstIllegal | config.py:20 | the lines before the first write that `os.environ` refuses |
| Config.LastWins | config.py:20 | the last line that sets a key decides its value |
| Config.Untouched | config.py:16-20 | a key no line sets keeps its earlier value or absence |
| Config.Environment.LoadEnvFile | config.py:14-20 | the environment gets every entry of the lines before the first refused write, in order; a refused write is a ValueError |
| Config.GetEnv | config.py:25 | the environment value when present, otherwise the default |
| Config.ServerPassword | config.py:33-35 | None iff the variable is unset, otherwise its value |
| Config.GettersRule | config.py:23-50 | each getter returns the variable when it is set and otherwise "127.0.0.1", "https://www.codebuddy.ai", ".codebuddy_creds" or "INFO" |
| Config.ModelList | config.py:56 | the list has one more element than the setting has commas, and no element holds a comma |
| Config.ModelListRoundTrip | config.py:56 | comma-free, already stripped names joined by commas come back as they were |
| Config.DefaultModelList | config.py:55-56 | with `CODEBUDDY_MODELS` unset the list is the nine default models |
| Strings.Split | config.py:56 | `str.split` with a one-character separator gives at least one piece |
| Strings.SplitCount | config.py:56 | `split` gives one more piece than the separators in the string |
| Strings.SplitOfJoin | config.py:56 | splitting a join of separator-free pieces gives the pieces back |
| Strings.StripSpec | config.py:17 | `strip` removes exactly the surrounding whitespace |
| Strings.ReplaceLeavesAbsent | src/codebuddy_router.py:89-93 | `replace` with a replacement that cannot create the pattern leaves no occurrence of it |
| Json.GetOr | src/codebuddy_router.py:208 | `get(k, default)` succeeds only on a dict, giving the key's value or the default |
| Json.Index0 | src/codebuddy_router.py:193 | `v[0]` succeeds iff `v` is a non-empty list or string |
| Json.PyAdd | src/codebuddy_router.py:84 | `+` concatenates strings; it succeeds only on operands of matching kind |
| Json.PyIAdd | src/codebuddy_router.py:210 | `+=` on a list extends it with any iterable and fails exactly on a non-iterable; on a string it concatenates a string and fails on anything else |
| Json.Iterate | src/codebuddy_router.py:213 | `for x in v` visits `len(v)` items and fails on scalars |

## Left out

- HTTP is not modelled: the `httpx` calls, `asyncio.sleep`, FastAPI routing and
  `Depends`, `StreamingResponse`, the models endpoint, and the streaming
  pass-through generator, which only forwards bytes. The model ends at the
  request the client would send and starts at the status and chunks it
  receives.
- JSON parsing and serialisation, and `str` of floats and containers, are
  arbitrary functions in `Json.Codec`. No property depends on what they
  compute. The guard that recognises stringified JSON is modelled; what the
  parse returns is not.
- `uuid4` and `secrets.token_hex` are suppliers given as parameters. The
  tool ids draw `uuid4().hex` from `ApiMessages.Uuids`, 32 lower-case hex
  digits. The header fallbacks (`str(uuid4())`, 36 characters with dashes,
  and `secrets.token_hex(16)`) are arbitrary strings in `ApiRequest.FreshIds`.
  Their randomness and uniqueness are not modelled.
- `str.isalnum` and `str.isspace` are modelled on ASCII only; Python also
  accepts other Unicode letters, digits and spaces.
- Concurrency is not modelled: the `RLock` of the usage counters, the locking
  in the singleton, and the token manager's lack of a lock. Calls are
  sequential.
- Floats are exact reals (`Json.Value.Real`): `+` on floats and the equality
  of float tool-call indices are computed without IEEE rounding, so
  0.1 + 0.2 == 0.3 holds in the model and not in Python. `temperature` and
  `top_p` are passed through. Logging is not modelled.
- ApiMessages.ToolResultIdValid: the `[a-zA-Z0-9_-]` guarantee rests on the
  ASCII `isalnum`. Python's `str.isalnum` also accepts non-ASCII letters and
  digits, so the code keeps a string id such as "é1", which the pattern
  rejects. `IntendedToolResultId` makes no such exception.
- `time.time()` is the parameter `now`. The rotation count is the parameter
  `r`, because `get_rotation_count`, `get_active_config` and `update_settings`
  are not defined in the configuration module. src/settings_router.py is not
  part of this model.
- The file system is a parameter. A `Dir` is a listing in glob order, with
  each file's parse result; a file that cannot be read or decoded is a
  non-parse. `os.makedirs` for a missing directory, and the resolution of the
  credentials path relative to the module's own directory, are left out.
- TokenManager.CodeBuddyTokenManager.AddCredential: what the reload sees is the
  parameter `after`. The model does not enforce that `after` holds the file
  just written. AddedIsLoaded states what follows when it does.
- Both SSE loops split each network chunk on "\n" on its own. A line broken
  across two chunks is not reassembled, and the model says so explicitly
  (`ChunkLines`). UTF-8 decoding of chunks is not modelled; chunks arrive as
  strings.
- The fallback `.env` reader takes the file as its lines. Opening the file,
  universal newlines and UnicodeDecodeError are left out, as is python-dotenv
  itself.
- The `CODEBUDDY_PORT` getter (`int(...)`) is left out; integer parsing is not
  modelled.
- Bootstrap, UI and scripts are not part of this model: web.py,
  frontend_router.py, health_router.py, setup_env.py, install_deps.py,
  verify_setup.py and activate_env.py. The Pydantic schemas in models.py
  are not modelled either.

## Findings

| source | as written | input that shows it | evidently intended | confidence | as-written member | corrected member |
|---|---|---|---|---|---|---|
| src/codebuddy_router.py:202-210 | `merged_content` starts as the first delta's content, and the loop over all chunks, the first included, appends each chunk's content again | one collected chunk `{"choices":[{"delta":{"content":"a"}}]}` gives the message content "aa" | each chunk's content counted once: "a" | not executed | RouterFold.FoldContent | RouterFold.IntendedContent |
| src/codebuddy_api_client.py:86-95 | the id check is `all(c.isalnum() or c in '_-' for c in tool_use_id)`, which iterates any iterable, so a truthy list or dict id passes and is sent on as it is | a `tool_result` with `"toolUseId": ["ab"]` leaves with the list `["ab"]` | the comment at line 92 asks for an id matching `[a-zA-Z0-9_-]+`: any id that is not such a string is regenerated | not executed | ApiMessages.ListIdSentAsList | ApiMessages.IntendedToolResultId |

`RouterFold.Fold` and `FoldChunks` with `seedFirst` model the fold as written.
`RouterFold.DoubledFirstContent` shows the doubled content for the input
above. The reply the model builds, `RouterFold.NonStreamingReply`, uses the
corrected `IntendedFold`. That fold seeds the content with the first delta's
content, as the code does, and the first chunk then adds only its tool-call
fragments. So list content is still extended by the later chunks' items
(`ListContentOnce`) rather than failing.

`ApiMessages.ToolResultIdNonString` states every non-string case of the id
check as written; `ApiMessages.ProcessBlock` keeps that behaviour, since the
translation as written is what the client sends. `IntendedToolResultId`
is the corrected id, and `IntendedIdAgrees` shows the two agree on string
and missing ids.
