# actAgents turn-based chat state engine, in Dafny

This project models the core of actAgents. actAgents is an LLM agent framework: a
conversation loop calls an LLM, runs the tools the LLM asks for, and keeps
each conversation ("chat") in Redis. The chat is kept as a message log, a tool-call
log and a free-form JSON chat state. The model covers:

- **Turn lifecycle** (`ChatState`, chat_state_service.py). The in-memory index of
  active turns per chat: `start_turn`, `add_assistant_message`, `add_tool_result`,
  `force_complete_turn` and `cleanup_active_turns`. Also the chat-state read/update,
  tool-call auditing and `clear_chat_data`.
- **History repair and windowing** (`Repair`, `Windowing`, `ChatState.HistoryView`).
  The pass that validates tool-call pairing, the grouping of messages into the last
  *k* turns, and the view `get_chat_history` returns.
- **Storage** (`Redis`, redis_storage.py). A typed Redis keyspace (`RedisClient`)
  with the primitives the storage uses (SET NX, the compare-and-delete script,
  INCR, RPUSH, LTRIM, LRANGE index rules). On top of it: `DistributedLock`,
  `_execute_with_retry` and the `RedisStorage` operations.
- **Conversation loop** (`Agent`, base_agent.py). Message preparation with the
  system prompt, the history projection, assembly of streamed tool-call fragments,
  one tool call with its retry, and the bounded loop of `complete`.
- **Smaller cores**:
  - `Tickets`: the demo ticket database.
  - `Faq`: FAQ search and relevance.
  - `Laptop`: laptop search payload cleaning, URL assembly and the flat-to-nested
    `LaptopModel`.
  - `Logger`: the chat logger's id sanitising, trimming, result shortening, entry
    creation and routing.

Modules:
- Shared vocabulary: `Wrappers` (Option/Result/error kinds), `PyStr` (Python string
  semantics: slices, `lower`, `split`, `in`, ordering), `Json` (a JSON value whose
  objects are ordered association lists, like Python dicts) and `Messages` (roles,
  messages, tool calls, `Filter` and the subsequence relation).
- `Sorting`: Python's stable `sort(key=...)`, as an insertion sort proved sorted,
  a permutation and stable.

Stateful entities are classes whose methods are specified against functions:
- `RedisClient`, `DistributedLock` and `RedisStorage`;
- `ChatStateService`, whose `activeTurns` map is the `_active_turns` index;
- `TicketDatabase` and `ChatLogger`.

Loops in the source are methods with invariants, each proved equal to a
specification function. Those functions carry the properties as lemmas.

Inputs replace what cannot be modelled:
- The LLM is an oracle `(iteration, messages) -> Reply`.
- Each tool attempt is an oracle `(iteration, slot, attempt) -> Attempt`.
- The clock is an `Instant` parameter: exact microseconds plus an ISO text.
- uuids, lock identifiers and generated message ids are parameters.
- A stored JSON text is `Blob<T>`: `Stored(value)`, or `Corrupt` when `json.loads` would fail.
- Waiting for a lock until its deadline is a number of polls, `lockPolls`.

Two behaviours of the code are worth stating outright:
- Repair removes only the assistant messages that announced tool calls left
  unanswered. Tool results already accepted for such an announcer stay, so a
  second pass can remove more: repair is not idempotent.
  `Repair.PartialResultSurvives` and `Repair.RepairNotIdempotent` prove both
  behaviours on concrete histories.
- `add_tool_call` calls `trim_history(chat, 100)`, which trims the chat message
  list to its last 100 entries as well as the tool-call log.
  `ChatState.ChatStateService.AddToolCall` states that.

## Model

| member | source | states |
|---|---|---|
| ChatState.UserMessage | core/services/state_management/chat_state_service.py:142-150 | the user message of a new turn has role user, carries both the turn id and the message id, is timestamped and is a regular message |
| ChatState.AssistantMessage | core/services/state_management/chat_state_service.py:167-189 | the assistant message carries the turn and message ids and a timestamp; it announces tool calls exactly when `tool_calls` is non-empty |
| ChatState.ToolResultMessage | core/services/state_management/chat_state_service.py:230-243 | the tool message carries the tool-call id, the tool name, both ids and a timestamp; it has an `error` exactly when an error text was given |
| ChatState.Announced | core/services/state_management/chat_state_service.py:167-187 | the turn records the assistant message id; with tool calls the expected ids become the call ids in order and completion is unchanged; without them the turn becomes complete; completed results are untouched |
| ChatState.Recorded | core/services/state_management/chat_state_service.py:246-254 | the completed set gains the id and nothing else, stays free of duplicates, and the turn is complete exactly when it was, or the completed and expected id sets are now equal |
| ChatState.Swept | core/services/state_management/chat_state_service.py:282-295 | exactly the turns whose age exceeds `max_age_minutes` are removed; the others keep their metadata |
| ChatState.ForceCompleteUnderLock | core/services/state_management/chat_state_service.py:267-278 | `force_complete_turn` entered with the chat's turn lock already held never returns; with the lock free it keeps the same turn ids |
| ChatState.SweepBlocksOnStaleTurn | core/services/state_management/chat_state_service.py:280-296 | as written, the sweep never finishes when some turn is stale, and when it finishes it has removed nothing |
| ChatState.RemoveEachUnlocked | core/services/state_management/chat_state_service.py:292-295 | without re-entering the lock, the removal loop deletes exactly the listed turn ids and leaves every other turn unchanged |
| ChatState.SweepWithoutReentry | core/services/state_management/chat_state_service.py:280-296 | with a force-complete that does not take the lock again, the sweep finishes and keeps exactly `Swept` |
| ChatState.FileTurn | core/services/state_management/chat_state_service.py:139 | filing a duplicate-free turn under its id keeps every chat's index well formed (keys equal turn ids, completed lists duplicate-free) |
| ChatState.ChatStateService.constructor | core/services/state_management/chat_state_service.py:53-78 | a new service has an empty turn index and the given tool-history settings |
| ChatState.ChatStateService.Post | core/services/state_management/storage_service/redis_storage.py:252-290 | a message post succeeds exactly when the chat-write lock could be taken; success appends the message unless its id is already stored, and failure changes nothing |
| ChatState.ChatStateService.StartTurn | core/services/state_management/chat_state_service.py:125-153 | returns `(turn_id, user_message_id)`; the turn is filed with no expected or completed ids and not complete; exactly one user message with both ids is posted; a lock timeout leaves the log unchanged |
| ChatState.ChatStateService.AddAssistantMessage | core/services/state_management/chat_state_service.py:155-200 | an unknown turn is an error and changes nothing; otherwise the turn is updated as `Announced` says and one assistant message is posted, or the lock timeout is reported and the log is unchanged |
| ChatState.ChatStateService.AddToolResult | core/services/state_management/chat_state_service.py:202-265 | an unknown turn or an unexpected tool-call id returns false and changes nothing; an accepted id posts one tool message, records the id as `Recorded` says and returns true exactly when every expected id has completed |
| ChatState.ChatStateService.ForceCompleteTurn | core/services/state_management/chat_state_service.py:267-278 | returns false and changes no turn when the turn is unknown; otherwise marks it complete and keeps it in the index, so repeated calls keep it complete |
| ChatState.ChatStateService.CleanupActiveTurns | core/services/state_management/chat_state_service.py:280-296 | the chat's index becomes `Swept` of the old index: exactly the stale turns are removed |
| ChatState.Merged | core/services/state_management/chat_state_service.py:494-495 | the merged state's `updated_at` is the current time |
| ChatState.MergedKeys | core/services/state_management/chat_state_service.py:494-495 | every other key of the merged state comes from the update when the update has it, and otherwise from the current state |
| ChatState.DefaultState | core/services/state_management/chat_state_service.py:40-47 | the default state has no `version`, is a non-empty object and records the chat id |
| ChatState.OverwriteAfterRead | core/services/state_management/chat_state_service.py:470-504 | writing a chat's state after a read gives the same store as writing it without the read, whatever default the read stored |
| ChatState.UpdatedStateSpec | core/services/state_management/chat_state_service.py:488-504 | the stored state after an update has `last_updated` and `updated_at` set to now, the update's value for each updated key, the current value for every other key, and version 1 when none was stored |
| ChatState.ChatStateService.GetChatState | core/services/state_management/chat_state_service.py:470-486 | returns the stored state, or stores and returns the default state when none is stored or it is empty or corrupt; nothing else changes |
| ChatState.ChatStateService.UpdateChatState | core/services/state_management/chat_state_service.py:488-504 | succeeds exactly when the merged state's version is an integer; then it stores the merged state with new metadata; on failure only the default written by the read remains |
| ChatState.ChatStateService.StoreUpdate | core/services/state_management/chat_state_service.py:494-497 | merges the update into the given state and stores it, or reports an invalid version and stores nothing |
| ChatState.ToolCallRecord | core/services/state_management/chat_state_service.py:570-581 | the audit record carries the tool-call id and a timestamp; `result` is present exactly when the result is not None, and `error` exactly when an error text was given |
| ChatState.ChatStateService.AddToolCall | core/services/state_management/chat_state_service.py:555-593 | with tool history off, or the write lock held, nothing changes; otherwise the record is appended unless its id is already stored, and then both lists are trimmed to their last 100 entries when the trim lock can be taken |
| ChatState.ChatStateService.GetToolHistory | core/services/state_management/chat_state_service.py:539-553 | empty when tool history is off; otherwise the last `limit` (default 100) parsable records, sorted by timestamp |
| ChatState.ChatStateService.ClearChatData | core/services/state_management/chat_state_service.py:595-610 | empties the chat's turn index and stores the default state with version 1; when the trim lock can be taken both lists are deleted, otherwise they stay and the lock timeout is reported |
| ChatState.ChatStateService.Configure | core/services/state_management/chat_state_service.py:612-619 | sets both tool-call settings and leaves the turn index alone |
| ChatState.TooledSpec | core/services/state_management/chat_state_service.py:434-442 | the repaired or filtered history is a subsequence of the sorted history; with tool calls excluded it holds no tool message and no assistant message with tool calls |
| ChatState.WindowedSpec | core/services/state_management/chat_state_service.py:444-448 | the k-turn window is a subsequence of its input |
| ChatState.LimitedSpec | core/services/state_management/chat_state_service.py:450-452 | the final limit keeps a subsequence of at most `limit` messages |
| ChatState.HistoryViewSpec | core/services/state_management/chat_state_service.py:421-452 | the returned history is a subsequence of the timestamp-sorted raw history, has at most `limit` messages, has no tool traffic when tool calls are excluded, and is exactly the repaired sorted history with no window and no limit |
| ChatState.ShapeHistory | core/services/state_management/chat_state_service.py:428-452 | the method's result is `HistoryView` of the raw history |
| ChatState.WindowAndLimit | core/services/state_management/chat_state_service.py:444-452 | applies the turn window only when `k_turns` is given, then keeps the last `limit` messages when `limit` is non-zero and exceeded |
| ChatState.RepairOrFilter | core/services/state_management/chat_state_service.py:434-442 | runs the repair pass, or the comprehension that drops tool traffic, as `Tooled` specifies |
| ChatState.ChatStateService.GetChatHistory | core/services/state_management/chat_state_service.py:405-468 | sweeps the chat's turns older than 60 minutes, reads twice the effective limit from storage, and returns `HistoryView` of it with `include_tool_calls` defaulting to the service setting |
| ChatState.ChatStateService.ReadHistory | core/services/state_management/chat_state_service.py:420-452 | the messages returned are `HistoryView` of the stored history read with twice the effective limit (a missing or zero limit counts as the configured 5) |
| ChatState.SubseqKeeps | core/services/state_management/chat_state_service.py:439-442 | a property that holds for every message of a history holds for every message of a subsequence of it |
| Repair.ValidateAndRepair | core/services/state_management/chat_state_service.py:298-363 | the loop computes `Repaired`; the result is an order-preserving subsequence of the input and keeps every regular message, in order |
| Repair.AnnounceAll | core/services/state_management/chat_state_service.py:308-309 | the pending map afterwards holds exactly the old pending ids plus the message's call ids |
| Repair.RemoveMatching | core/services/state_management/chat_state_service.py:332-338 | removing the pending announcers keeps, in order, exactly the messages that are not announcers of a pending call |
| Repair.Drop | core/services/state_management/chat_state_service.py:332-338 | removal never lengthens the list |
| Repair.DropKeepsOthers | core/services/state_management/chat_state_service.py:332-338 | removing announcers keeps every tool message and every regular message, in order |
| Repair.DropIsSubseq | core/services/state_management/chat_state_service.py:337-338 | the list after removal is a subsequence of the list before it |
| Repair.DropMembers | core/services/state_management/chat_state_service.py:333-335 | a message survives removal exactly when it was present and is not a pending announcer |
| Repair.ScanSubseq | core/services/state_management/chat_state_service.py:303-347 | the output built by the scan is a subsequence of the input |
| Repair.ScanPending | core/services/state_management/chat_state_service.py:306-318 | every pending id maps to an assistant message with tool calls that is still in the output |
| Repair.ScanRegular | core/services/state_management/chat_state_service.py:327-347 | the scan keeps every regular message, in order |
| Repair.ScanTools | core/services/state_management/chat_state_service.py:312-325 | the tool messages the scan keeps are exactly the accepted ones, in order |
| Repair.UnresolvedSnoc | core/services/state_management/chat_state_service.py:306-318 | appending a message leaves an announcement unresolved exactly when the message announces it, or it was unresolved and the message neither resolves it, re-announces it nor is a user message |
| Repair.LastAnnouncerSnoc | core/services/state_management/chat_state_service.py:308-309 | an announcer stays the last one for an id exactly when the appended message does not announce that id again |
| Repair.PendingExactly | core/services/state_management/chat_state_service.py:301-345 | an id is pending after the scan exactly when some announcement of it is unresolved, and it maps to its last announcer |
| Repair.AcceptedLast | core/services/state_management/chat_state_service.py:312-318 | the last message is an accepted tool result exactly when it is a tool message whose id was pending before it |
| Repair.RepairedIsSubseq | core/services/state_management/chat_state_service.py:298-363 | the repaired history is an order-preserving subsequence of its input |
| Repair.RepairKeepsRegular | core/services/state_management/chat_state_service.py:327-347 | messages that are neither tool messages nor assistant messages with tool calls are always kept, in order |
| Repair.RepairKeepsAcceptedTools | core/services/state_management/chat_state_service.py:312-318 | the repaired history's tool messages are exactly the accepted tool results, in order: the final cleanup removes none of them (see also lines 349-363 of the same file) |
| Repair.AcceptedHasKeptAnnouncer | core/services/state_management/chat_state_service.py:315-318 | every kept tool result's id was pending when it arrived, announced by an assistant message then in the output |
| Repair.AtMostOneResultPerAnnouncement | core/services/state_management/chat_state_service.py:315-318 | two accepted results with the same id have a fresh announcement of that id between them: each announcement resolves at most one result |
| Repair.UserDropsUnresolved | core/services/state_management/chat_state_service.py:330-347 | a user message arriving with a call pending removes that call's announcer from the output and empties the pending map |
| Repair.EndDropsUnresolved | core/services/state_management/chat_state_service.py:349-361 | an announcement still pending at the end of the list is not in the repaired history |
| Repair.PartialResultSurvives | core/services/state_management/chat_state_service.py:349-363 | an announcer of two calls followed by one result is repaired to that result alone: the accepted partial result stays |
| Repair.RepairNotIdempotent | core/services/state_management/chat_state_service.py:298-363 | there is a history for which a second repair pass removes more than the first |
| Repair.FirstPass | core/services/state_management/chat_state_service.py:330-347 | the first pass over that history keeps the partial tool result and drops its announcer |
| Repair.SecondPass | core/services/state_management/chat_state_service.py:312-325 | the second pass drops the now-orphaned tool result |
| Repair.PartialTurn | core/services/state_management/chat_state_service.py:303-318 | the scan state after a user message, an announcer of two calls and one result: all three kept, one call pending |
| Windowing.ExtractTurns | core/services/state_management/chat_state_service.py:365-403 | the result is a subsequence of the input; with k None or not positive it is every message after the first user message that is a user, assistant or tool message; with k > 0 it is a suffix of that with exactly min(k, users) user messages |
| Windowing.GroupTurns | core/services/state_management/chat_state_service.py:371-392 | the grouping loop computes `Turns` |
| Windowing.FlattenTurns | core/services/state_management/chat_state_service.py:398-402 | the flattening loop concatenates the selected turns in order |
| Windowing.TurnsSpec | core/services/state_management/chat_state_service.py:371-392 | every group starts with its only user message followed by assistant and tool messages; the groups flatten back to the kept messages; there is one group per user message |
| Windowing.GroupScanInvariant | core/services/state_management/chat_state_service.py:375-390 | the grouping loop's state: finished groups are well formed, the open group is empty or well formed, and together they flatten to the kept prefix |
| Windowing.WindowSpec | core/services/state_management/chat_state_service.py:394-402 | k None or not positive keeps all kept messages; k > 0 keeps a suffix with min(k, users) user messages that starts with a user message |
| Windowing.WindowIsSubseq | core/services/state_management/chat_state_service.py:365-403 | the window is a subsequence of the input |
| Windowing.KeptIsSubseq | core/services/state_management/chat_state_service.py:380-390 | the messages grouping keeps are a subsequence of the input (leading orphans and other roles dropped) |
| Windowing.KeptCountsUsers | core/services/state_management/chat_state_service.py:380-384 | grouping keeps every user message |
| Windowing.FlattenCountsTurns | core/services/state_management/chat_state_service.py:398-402 | flattening well-formed groups gives exactly one user message per group |
| Windowing.TurnHasOneUser | core/services/state_management/chat_state_service.py:380-388 | a well-formed group holds exactly one user message |
| Windowing.FlattenSuffix | core/services/state_management/chat_state_service.py:394-396 | keeping the last groups keeps a suffix of the flattened list |
| Windowing.FirstOfFlatten | core/services/state_management/chat_state_service.py:394-402 | a non-empty list of well-formed groups flattens to a list that starts with a user message |
| Sorting.Sort | core/services/state_management/storage_service/redis_storage.py:244 | the insertion sort computes `SortBy`; the result is sorted by the key, a permutation of the input, and stable: the elements with any one key keep their order |
| Sorting.InsertOne | core/services/state_management/storage_service/redis_storage.py:244 | one insertion step computes `Insert` |
| Sorting.InsertPermutes | core/services/state_management/storage_service/redis_storage.py:244 | inserting adds exactly the one element |
| Sorting.InsertSorted | core/services/state_management/storage_service/redis_storage.py:244 | inserting into a sorted list keeps it sorted |
| Sorting.InsertStable | core/services/state_management/storage_service/redis_storage.py:244 | inserting places the new element after the existing elements with an equal key |
| Sorting.SortByPermutes | core/services/state_management/chat_state_service.py:430 | sorting is a permutation |
| Sorting.SortBySorted | core/services/state_management/chat_state_service.py:430 | the result is sorted by the key |
| Sorting.SortByStable | core/services/state_management/chat_state_service.py:430 | sorting is stable, as Python's sort is |
| Sorting.StrLeIsTotalOrder | core/services/state_management/storage_service/redis_storage.py:244 | comparison of timestamp strings is a total order |
| Sorting.DescendingIsTotalOrder | examples/customer_service_agent/tools/faq_search.py:157 | the reversed score order is a total order |
| Redis.KeysOfChatAreDistinct | core/services/state_management/storage_service/redis_storage.py:143-151 | the five key families never collide, even across chats |
| Redis.LockKindsAreDistinct | core/services/state_management/storage_service/redis_storage.py:254 | the chat-write, tool-write, trim and turn lock keys never collide, even across chats (see also lines 333, 377, 406 of the same file) |
| Redis.DifferAt | core/services/state_management/storage_service/redis_storage.py:146-150 | strings with different prefixes at one position stay different whatever follows |
| Redis.LRange | core/services/state_management/storage_service/redis_storage.py:226-231 | LRANGE never returns more entries than the list holds |
| Redis.LRangeLast | core/services/state_management/storage_service/redis_storage.py:226-231 | `LRANGE key -n -1` is the last min(n, len) entries |
| Redis.LRangeAll | core/services/state_management/storage_service/redis_storage.py:270-272 | `LRANGE key 0 -1` is the whole list |
| Redis.Parsed | core/services/state_management/storage_service/redis_storage.py:234-241 | skipping corrupt entries never adds entries |
| Redis.ParseAll | core/services/state_management/storage_service/redis_storage.py:234-241 | the parse loop keeps exactly the parsable entries, in order |
| Redis.Trimmed | core/services/state_management/storage_service/redis_storage.py:389-390 | LTRIM changes only the named list; it becomes the LRANGE of the same indices, and the key disappears when that is empty |
| Redis.RedisClient.constructor | core/services/state_management/storage_service/redis_storage.py:112-128 | a fresh keyspace is empty |
| Redis.RedisClient.SetNX | core/services/state_management/storage_service/redis_storage.py:43-48 | SET NX succeeds exactly when the key is absent and then stores the value; nothing else changes |
| Redis.RedisClient.CompareAndDelete | core/services/state_management/storage_service/redis_storage.py:67-76 | the script deletes the key and returns 1 exactly when it holds the given value, and otherwise returns 0 and changes nothing |
| Redis.RedisClient.Incr | core/services/state_management/storage_service/redis_storage.py:260-262 | INCR returns the counter plus one (0 when absent) and stores it |
| Redis.RedisClient.RPushHistory | core/services/state_management/storage_service/redis_storage.py:287 | RPUSH appends one entry at the tail of the chat's history and returns the new length |
| Redis.RedisClient.RPushTool | core/services/state_management/storage_service/redis_storage.py:361 | RPUSH appends one entry at the tail of the chat's tool history |
| Redis.RedisClient.LTrimHistory | core/services/state_management/storage_service/redis_storage.py:389 | LTRIM on the history is `Trimmed` |
| Redis.RedisClient.LTrimTool | core/services/state_management/storage_service/redis_storage.py:390 | LTRIM on the tool history is `Trimmed` |
| Redis.RedisClient.AppendMessage | core/services/state_management/storage_service/redis_storage.py:269-290 | the duplicate scan and push append the message exactly when no parsable entry has its id |
| Redis.RedisClient.AppendTool | core/services/state_management/storage_service/redis_storage.py:341-364 | the tool record is appended unless its id is non-empty and already stored |
| Redis.RedisClient.ApplyTurnOp | core/services/state_management/storage_service/redis_storage.py:411-429 | one queued operation appends its message or tool record, or writes the state with `last_updated`, and changes nothing else |
| Redis.RedisClient.ApplyTurnOps | core/services/state_management/storage_service/redis_storage.py:411-429 | the queued operations, applied in order, append exactly their messages and tool records and leave the state of the last state operation; counters and locks are untouched |
| Redis.RedisClient.SetState | core/services/state_management/storage_service/redis_storage.py:208-213 | SETEX replaces the chat's state and nothing else |
| Redis.DistributedLock.constructor | core/services/state_management/storage_service/redis_storage.py:21-28 | the lock key is `lock:` + name, with the given identifier, not acquired |
| Redis.DistributedLock.Acquire | core/services/state_management/storage_service/redis_storage.py:37-59 | succeeds exactly when some poll finds the key absent; the key then holds this identifier and the lock is acquired; otherwise a lock timeout and nothing changes |
| Redis.DistributedLock.Release | core/services/state_management/storage_service/redis_storage.py:61-86 | releases exactly when acquired, the script runs and the key still holds this identifier; only then is the key deleted; another holder's key is left alone |
| Redis.ExecuteWithRetry | core/services/state_management/storage_service/redis_storage.py:153-172 | at most `max_retries` attempts; only connection losses are retried; returns the first success; another failure is reported at once; after all attempts lose the connection it reports unavailability |
| Redis.AppendMessageIdempotent | core/services/state_management/storage_service/redis_storage.py:269-290 | posting the same message id twice stores it once |
| Redis.AppendMessageGrowsByOne | core/services/state_management/storage_service/redis_storage.py:269-290 | a post keeps the old entries as a prefix, adds at most one, and the id is stored afterwards |
| Redis.AppendToolIdempotent | core/services/state_management/storage_service/redis_storage.py:342-357 | recording a call with a non-empty id twice stores it once |
| Redis.AppendToolWithoutId | core/services/state_management/storage_service/redis_storage.py:342-364 | a record without an id is appended every time |
| Redis.FindMessageId | core/services/state_management/storage_service/redis_storage.py:274-283 | the scan finds an id exactly when some parsable entry has it |
| Redis.FindToolCallId | core/services/state_management/storage_service/redis_storage.py:348-357 | the scan finds a tool-call id exactly when some parsable entry has it |
| Redis.NextVersion | core/services/state_management/storage_service/redis_storage.py:205 | the new version is 1 when there is none; an integer version goes up by one; a bool counts as 0 or 1, as Python adds it; any other version is an error, and only then |
| Json.EscapeChar | core/services/state_management/chat_state_service.py:236 | one character as `json.dumps` writes it: always printable ASCII, and copied unchanged exactly when it is printable and neither `"` nor `\` |
| Json.Escape | core/services/state_management/chat_state_service.py:236 | a string literal's body is printable ASCII and never shorter than the string |
| Json.EscapeVerbatim | core/services/state_management/chat_state_service.py:236 | a string of printable characters other than `"` and `\` is written unchanged |
| Json.EscapeAppend | core/services/state_management/chat_state_service.py:236 | escaping works character by character: the escape of a concatenation is the concatenation of the escapes |
| Json.EscapeExamples | core/services/state_management/chat_state_service.py:236 | a newline is written as `\n` and `é` as `\u00e9` |
| Redis.WithMeta | core/services/state_management/storage_service/redis_storage.py:202-206 | the stored state has the given `version` and `last_updated` |
| Redis.WithMetaKeeps | core/services/state_management/storage_service/redis_storage.py:202-206 | every other key keeps its value |
| Redis.Filled | core/services/state_management/storage_service/redis_storage.py:258-267 | an id and a timestamp are filled in only when absent; the rest of the message is unchanged |
| Redis.AppendedTwice | core/services/state_management/storage_service/redis_storage.py:411-429 | appending in two steps is appending the concatenation |
| Redis.ReadRecent | core/services/state_management/storage_service/redis_storage.py:226-244 | the last `n` parsable entries, sorted by timestamp: sorted, and a permutation of what was read |
| Redis.RedisStorage.constructor | core/services/state_management/storage_service/redis_storage.py:92-110 | the storage works over the given client |
| Redis.RedisStorage.GetChatState | core/services/state_management/storage_service/redis_storage.py:174-194 | returns the state when it is stored and parsable, and None otherwise |
| Redis.RedisStorage.SetChatState | core/services/state_management/storage_service/redis_storage.py:196-217 | stores the state with `version` = incoming version (default 0) + 1 and `last_updated`, keeping every other key; a non-integer version stores nothing |
| Redis.RedisStorage.GetChatHistory | core/services/state_management/storage_service/redis_storage.py:219-250 | the last `limit` (default 5) parsable messages, sorted by timestamp, a permutation of what was read |
| Redis.RedisStorage.GetToolHistory | core/services/state_management/storage_service/redis_storage.py:301-329 | the last `limit` (default 100) parsable tool records, sorted by timestamp |
| Redis.RedisStorage.AddChatMessage | core/services/state_management/storage_service/redis_storage.py:252-299 | fails with a lock timeout and changes nothing when the chat-write lock is held; otherwise fills in id (from the incremented counter) and timestamp only when absent and appends the message unless its id is already stored |
| Redis.RedisStorage.AddToolCall | core/services/state_management/storage_service/redis_storage.py:331-373 | fails with a lock timeout and changes nothing when the tool-write lock is held; otherwise timestamps the record when needed and appends it unless its non-empty id is already stored |
| Redis.RedisStorage.TrimHistory | core/services/state_management/storage_service/redis_storage.py:375-398 | limit 0 deletes both lists; another limit keeps the last `limit` entries of each, in order; a held trim lock changes nothing |
| Redis.RedisStorage.AtomicTurnOperation | core/services/state_management/storage_service/redis_storage.py:400-445 | under the turn lock, applies every operation in order (messages and tool records appended, the last state written) and returns whether both lists exist; a held lock changes nothing |
| Agent.PrepareMessages | core/agents/common/base_agent.py:153-172 | every system message is removed; with a non-empty prompt the output starts with exactly one system message holding it; the output starts with a system message exactly when there is such a prompt |
| Agent.PrepareKeepsConversation | core/agents/common/base_agent.py:159-170 | the non-system messages are kept in their original order |
| Agent.PrepareIdempotent | core/agents/common/base_agent.py:153-172 | preparing the prepared messages again changes nothing |
| Agent.Projected | core/agents/common/base_agent.py:226-230 | the projection drops message id, turn id, error and timestamp |
| Agent.ConversationEndsWithUser | core/agents/common/base_agent.py:216-236 | the conversation holds the projected history (role, content, tool calls, tool-call id and name kept) followed by the user message, and the prepared messages end with it |
| Agent.Grown | core/agents/common/base_agent.py:539-544 | the slot list grows with empty slots exactly until it covers the index, and existing slots are unchanged |
| Agent.GrowSlots | core/agents/common/base_agent.py:539-544 | the growing loop computes `Grown` |
| Agent.AbsorbDelta | core/agents/common/base_agent.py:538-551 | one delta is applied as `Absorbed` specifies |
| Agent.AbsorbAll | core/agents/common/base_agent.py:538-551 | the loop over a chunk's deltas continues the assembly of all deltas seen |
| Agent.AssembledSpec | core/agents/common/base_agent.py:535-551 | there are as many slots as the largest index needs; slot i's arguments are the in-order concatenation of its fragments, and its id and name are the last non-empty ones seen |
| Agent.NothingBeyondSlots | core/agents/common/base_agent.py:539-551 | indices past the slots needed have no fragments, id or name |
| Agent.EventsJoinToBuffer | core/agents/common/base_agent.py:553-556 | the yielded content events concatenate to the content buffer |
| Agent.AssembleStream | core/agents/common/base_agent.py:531-556 | reading the whole stream yields the assembled slots as `AssembledSpec` states, the content buffer and the content events in order, which concatenate to the buffer |
| Agent.ExecuteToolCall | core/agents/common/base_agent.py:425-516 | never fails; the tool message has the call's id and name; a registered function with parsable arguments that returns gives the rendered result, anything else an `Error executing tool '<name>': ...` text; audit writes only when saving, for this chat and call |
| Agent.ToolMessageIgnoresAuditing | core/agents/common/base_agent.py:445-480 | the returned message does not depend on whether and where the call is audited |
| Agent.FirstRun | core/agents/common/base_agent.py:381-387 | finds the first attempt that ran, and none earlier ran |
| Agent.RetryToolCall | core/agents/common/base_agent.py:380-419 | at most `tool_call_retry_attempts` attempts, stopping at the first that runs; with at least one attempt the result is a tool message with the call's id and name; with none there is no result |
| Agent.ExecuteToolCalls | core/agents/common/base_agent.py:372-423 | one result per requested call, in request order, each the retried execution of its call |
| Agent.Unwrapped | core/agents/common/base_agent.py:421-423 | the gathered results, in order |
| Agent.Complete | core/agents/common/base_agent.py:174-370 | at most the resolved `max_iterations` LLM calls; on exhaustion the fixed message and a force-complete of the turn; an LLM error force-completes the turn before failing; a reply without tool calls, including one whose `tool_calls` list is empty, is saved to the turn and returned at once as an assistant message; the prepared conversation starts the transcript |
| Agent.ToolRound | core/agents/common/base_agent.py:274-316 | a tool round appends the assistant message announcing the calls, then one retried result per call in request order, and keeps what came before |
| Agent.FollowUpBudgetResets | core/agents/common/base_agent.py:600-611 | as written, a follow-up budget of 0 is reset to the default 4 (see also line 187 of the same file) |
| Agent.StreamedChainIsUnbounded | core/agents/common/base_agent.py:573-614 | as written, when every streamed reply asks for tools the chain of follow-ups makes `fuel` calls for every `fuel` (see also line 187 of the same file) |
| Agent.StreamedCalls | core/agents/common/base_agent.py:573-614 | with the budget carried down, a streamed chain makes at most `max_iterations` calls and at least one |
| Agent.StreamedChainIsBounded | core/agents/common/base_agent.py:573-614 | with the budget carried down, a chain that always asks for tools makes exactly `max_iterations` calls |
| Tickets.TicketId | examples/customer_service_agent/tools/ticket_management.py:26 | the id starts with `TKT-<day>-` and carries at most 8 characters of the uuid |
| Tickets.ResponseTime | examples/customer_service_agent/tools/ticket_management.py:65 | `2-4 hours` exactly when the priority is high or urgent, otherwise `24 hours` |
| Tickets.NewTicket | examples/customer_service_agent/tools/ticket_management.py:29-48 | a new ticket is open, carries the request and has exactly one update, which is open and has no assignee or notes |
| Tickets.WithUpdate | examples/customer_service_agent/tools/ticket_management.py:97-113 | an update sets the status, appends exactly one entry with that status and message, and keeps the earlier entries and the rest of the ticket |
| Tickets.UpdatesOnlyAppend | examples/customer_service_agent/tools/ticket_management.py:97-113 | a chain of updates only appends, one entry each, and the last one's status wins |
| Tickets.TicketDatabase.constructor | examples/customer_service_agent/tools/ticket_management.py:12 | the database starts empty |
| Tickets.TicketDatabase.CreateTicket | examples/customer_service_agent/tools/ticket_management.py:14-75 | the new ticket is stored under the returned id; the reply is open and carries the priority, issue type, subject and response time |
| Tickets.TicketDatabase.UpdateTicket | examples/customer_service_agent/tools/ticket_management.py:77-135 | an unknown id returns `Ticket not found` and changes nothing; a list or dict id fails; a known id is updated as `WithUpdate` says and no other ticket changes |
| Faq.Names | examples/customer_service_agent/tools/faq_search.py:128-129 | the category names, in order |
| Faq.Lookup | examples/customer_service_agent/tools/faq_search.py:135-137 | a category's entries, empty for an unknown name |
| Faq.CategoriesToSearch | examples/customer_service_agent/tools/faq_search.py:128-131 | `all` searches every category, a known one only itself, an unknown one none |
| Faq.LowerAll | examples/customer_service_agent/tools/faq_search.py:141 | every tag lower-cased (see also line 214 of the same file) |
| Faq.CountIn | examples/customer_service_agent/tools/faq_search.py:204-217 | a word count never exceeds the number of query words |
| Faq.Relevance | examples/customer_service_agent/tools/faq_search.py:185-219 | the score is at least 0 and at most 15 + 3 × the number of query words |
| Faq.CalculateRelevance | examples/customer_service_agent/tools/faq_search.py:185-219 | the loops compute `Relevance`: 10 for the query in the question, 2 per query word found among the question words, 5 for the query in the answer and 1 per query word equal to a tag |
| Faq.SectionHitsSound | examples/customer_service_agent/tools/faq_search.py:139-154 | every hit comes from a matching entry of the category |
| Faq.SectionHitsComplete | examples/customer_service_agent/tools/faq_search.py:139-154 | every matching entry gives a hit |
| Faq.HitsSound | examples/customer_service_agent/tools/faq_search.py:135-154 | every result comes from a searched category's entry whose question, answer or a tag contains the lower-cased query |
| Faq.HitsComplete | examples/customer_service_agent/tools/faq_search.py:135-154 | every such entry appears among the results |
| Faq.RankedSpec | examples/customer_service_agent/tools/faq_search.py:157-158 | results are in non-increasing score order, come from the hits, and are cut to `max_results` with Python's slice rule |
| Faq.RankedKeepsBest | examples/customer_service_agent/tools/faq_search.py:157-158 | the results are hits, each at most as often as it occurs, and no hit left out by the cut scores above a kept one |
| Faq.PrefixScoresFirst | examples/customer_service_agent/tools/faq_search.py:157-158 | after the descending sort, everything past the cut scores at most what comes before it |
| Faq.CollectSection | examples/customer_service_agent/tools/faq_search.py:135-154 | the loop over one category appends its hits |
| Faq.CollectHits | examples/customer_service_agent/tools/faq_search.py:134-154 | the loop over the categories collects `Hits` |
| Faq.SearchFaq | examples/customer_service_agent/tools/faq_search.py:109-183 | success is always true, `results_count` is the number of results, results are ordered by score and each is a hit of the lower-cased query in the selected categories |
| Laptop.Clean | core/services/search/laptop_search.py:109-133 | a non-dict is returned unchanged; a dict gives a dict with no more keys |
| Laptop.CleanFields | core/services/search/laptop_search.py:119-131 | the cleaned fields are never more than the input's |
| Laptop.CleanIsClean | core/services/search/laptop_search.py:119-131 | the result holds no None, no empty list and no empty dict at any depth of dicts |
| Laptop.CleanFieldsAreClean | core/services/search/laptop_search.py:121-129 | every kept value is not None, not an empty list, not an empty dict, and clean |
| Laptop.CleanKeepsClean | core/services/search/laptop_search.py:119-133 | cleaning a clean value changes nothing |
| Laptop.CleanFieldsKeepClean | core/services/search/laptop_search.py:121-131 | cleaning the fields of a clean dict keeps them all |
| Laptop.CleanIdempotent | core/services/search/laptop_search.py:109-133 | cleaning twice is cleaning once |
| Laptop.CleanFieldsStep | core/services/search/laptop_search.py:121-129 | one key is kept, with its cleaned value, exactly when that value is kept |
| Laptop.CleanGet | core/services/search/laptop_search.py:121-129 | a key's cleaned value is its input value cleaned, and is absent when that value was None, an empty list or a dict that cleans to empty; other values, including "", 0 and False, are kept |
| Laptop.CleanKeepsKeyOrder | core/services/search/laptop_search.py:119-131 | the output's keys are a subsequence of the input's keys |
| Laptop.RangeIfAny | core/services/search/models/laptop_model.py:27-48 | a range is present exactly when the min or max key is present, even with a None value, and is `{min, max}` |
| Laptop.FromConfig | core/services/search/models/laptop_model.py:16-72 | budget is `{min, max}` when either key is present and otherwise `config["budget"]` (default `{}`); each range is present exactly when one of its keys is, and is then `{min, max}` of those keys; storage types, brand, processor and graphics brands and models, and operating system each default to `[]` |
| Laptop.CleanPayload | core/services/search/laptop_search.py:54-87 | the payload sent is a clean dict |
| Laptop.DefaultUrl | core/services/search/laptop_search.py:15-16 | with the default page and size, the URL ends in `?size=5&page=1` (see also line 91 of the same file) |
| Laptop.Search | core/services/search/laptop_search.py:18-36 | `page` and `size` are taken out of the criteria and every other key is unchanged; the URL is `base + endpoint + ?size=<size>&page=<page>` with defaults 5 and 1; the payload is the cleaned model of the criteria (see also line 91 of the same file) |
| Logger.SafeChatId | utils/chat_logger.py:96-99 | at most 50 characters, all alphanumerics, `.`, `_` or `-` |
| Logger.SafeChatIdIsSubseq | utils/chat_logger.py:96-99 | the sanitised id keeps characters of the original in their original order |
| Logger.SafeIdsAreKept | utils/chat_logger.py:96-99 | an id that is already safe and short is kept as is |
| Logger.SafeChatIdIdempotent | utils/chat_logger.py:96-99 | sanitising twice is sanitising once |
| Logger.FilterAllSatisfy | utils/chat_logger.py:99 | every character the filter keeps satisfies its test |
| Logger.FilterKeepsAll | utils/chat_logger.py:99 | the filter keeps a string whose characters all pass |
| Logger.ChatLogFileName | utils/chat_logger.py:96-100 | the file name is `chat_` + the sanitised id + `.log` |
| Logger.TrimContent | utils/chat_logger.py:249-253 | unchanged when verbose or short enough; otherwise the first `max_result_length` characters followed by the trimmed marker |
| Logger.TrimmedKeepsPrefix | utils/chat_logger.py:249-253 | the trimmed text keeps the content's prefix and is bounded by the limit plus the marker |
| Logger.ShortenToolResult | utils/chat_logger.py:235-247 | a `result` list longer than 3 is cut to its first 3 items with a `_summary` entry; every other key is unchanged; anything else is returned as is |
| Logger.ShortenIdempotent | utils/chat_logger.py:235-247 | shortening twice is shortening once |
| Logger.NewEntry | utils/chat_logger.py:285-303 | the entry carries the call's fields; an ERROR entry without a `stack_trace` gets the current trace and keeps every other key |
| Logger.ChatLogger.constructor | utils/chat_logger.py:55-89 | the filter defaults to empty and the queue exists exactly when logging is on |
| Logger.ChatLogger.Route | utils/chat_logger.py:145-169 | in CONSOLE_FILTERED mode an entry is printed exactly when its chat id is in the filter and is dropped otherwise; separate-file mode writes the chat's own file |
| Logger.ChatLogger.Log | utils/chat_logger.py:285-303 | a no-op when logging is off; otherwise exactly one entry is enqueued |
| Logger.ChatLogger.AddConsoleFilter | utils/chat_logger.py:305-307 | the filter gains the chat id |
| Logger.ChatLogger.RemoveConsoleFilter | utils/chat_logger.py:309-311 | the filter loses the chat id; removing an absent id is a no-op |
| Logger.ChatLogger.SetOutputMode | utils/chat_logger.py:313-317 | the output mode is replaced and nothing else changes |
| Logger.ChatLogger.Close | utils/chat_logger.py:333-351 | when logging is on, the shutdown marker is enqueued after the pending entries |

## Left out

- Asyncio concurrency: the per-chat `asyncio.Lock`, `gather`, `wait_for`, `sleep`. Each operation is modelled as one sequential step. A timeout is an oracle outcome (`Attempt.TimedOut`).
- The per-chat `asyncio.Lock` of the turn index is modelled only where the sweep re-enters it (see Findings). `ChatState.ChatStateService.CleanupActiveTurns` follows the intended sweep, `Swept`, as one step.
- Redis TTLs (`expire`, `setex` expiry) and lock-lease expiry are not modelled. A lock is held until it is released.
- Waiting for a lock until the deadline is `lockPolls`. Any number of polls sees the same keyspace, because nothing else runs in between.
- The retry of `_execute_with_retry` is modelled once, as `Redis.ExecuteWithRetry`. It is not threaded into every storage operation, which are modelled as succeeding after their lock.
- JSON encoding and decoding are abstract: a stored text is `Stored(value)` or `Corrupt`. `str()` of a list or dict is rendered as JSON by `Json.Render`, and `json.dumps(indent=4)` in the logger is not modelled.
- Message ids that are `None` and message ids that are absent are both `None`. A missing streamed tool-call id is `""`.
- uuids, `datetime.now()` and the lock identifier are parameters. The clock is exact microseconds, not floats.
- `duration_ms` of the tool audit record is left out, since it is wall-clock time.
- The bare `except` around the history sort (chat_state_service.py:429-432) is not modelled: a sort by string keys cannot fail.
- `connect`, `disconnect`, `health_check`, `get_chat_metadata`, `get_full_context` and the structlog calls are left out. They are transport or logging around the modelled operations.
- Agent.Complete: requires `tool_call_retry_attempts >= 1`. With 0, every tool result in the source is `None`, and the next LLM request is malformed.
- Agent.Complete: records the turn requests it issues (`SaveAssistant`, `ForceComplete`). The audit writes of each tool call are returned by `ExecuteToolCall` but not collected in its log.
- Streaming: only the delta assembly and the follow-up budget are modelled. What is yielded after the tool calls run, and the errors inside the stream, are not.
- The LLM (`litellm.acompletion`) and the tool functions are oracles.
- `Lower` and `IsAlnum` are ASCII-only. Python's Unicode case mapping is not modelled.
- The FAQ database of the example is an input, not the literal demo data. The query is a string, so the failure reply of `search_faq` (faq_search.py:177-183) cannot arise. Relevance scores are integers, which the float sums of the source equal exactly.
- The HTTP request of the laptop search and its fallback reply are not modelled. The model stops at the URL and the cleaned payload.
- Logger: the worker thread, files, printing, directory creation and old-file cleanup are not modelled. Only where an entry would go is modelled, and the dated file names are left out. A `timestamp` keyword argument overriding the entry's timestamp is not modelled.
- Json.Dumps: float values are not part of `Json`, so `json.dumps` of a float is not modelled. Escaping follows the default `ensure_ascii=True`.
- Faq.SearchFaq: an explicit `category=None` or `max_results=None` is treated like an absent argument (`"all"`, 3). In the source, `category=None` searches no category and `max_results=None` keeps every result.
- Web search, the API routes, the agent factory, settings, prompts and tool schemas are not part of this model.

## Findings

| source | as written | input that shows it | evidently intended | confidence | as-written member | corrected member |
|---|---|---|---|---|---|---|
| core/agents/common/base_agent.py:600-611 with :187 | The streaming follow-up passes `max_iterations - iteration - 1`, which reaches 0 after the budget is spent. `max_iterations or settings.max_tool_iterations` then turns 0 back into the default 4. | An LLM whose every streamed reply asks for tools: the chain of follow-up `complete` calls never stops. | The follow-up budget shrinks to 0 and the chain stops after `max_iterations` LLM calls. | not executed | Agent.StreamedChainIsUnbounded | Agent.StreamedChainIsBounded |
| core/services/state_management/chat_state_service.py:280-296 | `cleanup_active_turns` holds the chat's turn lock while it calls `force_complete_turn`, which takes the same non-reentrant `asyncio.Lock` again (line 269). | A chat with one turn older than 60 minutes: the next `get_chat_history` for that chat never returns. | The stale turns are removed and the sweep returns. | not executed | ChatState.SweepBlocksOnStaleTurn | ChatState.SweepWithoutReentry |
