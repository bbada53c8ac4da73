/**
  The chat-state manager: the per-chat index of active turns, the turn
  lifecycle that writes the conversation log through the Redis storage, the
  history read path (sort, repair or filter, turn window, final limit) and
  the dynamic chat state.

  Message ids, turn ids and clock readings are parameters; so is what
  happens to each distributed-lock request (`lockPolls`, `lockId`, as in
  `Redis.DistributedLock.Acquire`). Every method runs as one atomic step; the
  per-chat asyncio lock appears only where the sweep of stale turns takes it
  a second time (`SweepAsWritten`).
 */
module ChatState {
  import opened Wrappers
  import opened PyStr
  import opened Json
  import opened Messages
  import opened Repair
  import opened Windowing
  import opened Sorting
  import opened Redis

  /** `TurnMetadata`. */
  datatype TurnMetadata = TurnMetadata(
    turnId: string,
    userMessageId: string,
    assistantMessageId: string,
    toolCallIds: seq<string>,
    completedToolResults: seq<string>,
    isComplete: bool,
    createdAt: Instant,
    completedAt: Option<string>)

  /** The age above which `get_chat_history` sweeps a turn away. */
  const CleanupMaxAgeMinutes := 60
  const MicrosPerMinute := 60_000_000

  // ---------------------------------------------------------------- the records a turn writes

  function NewTurn(turnId: string, userMessageId: string, now: Instant): TurnMetadata {
    TurnMetadata(turnId, userMessageId, "", [], [], false, now, None)
  }

  function UserMessage(turnId: string, messageId: string, content: string, now: Instant): (m: Message)
    ensures m.role == User && m.messageId == Some(messageId) && m.turnId == Some(turnId)
    ensures m.timestamp.Some? && IsRegular(m)
  {
    Message(User, content, [], "", None, Some(messageId), Some(turnId), None, Some(now.iso))
  }

  /** The assistant message; `tool_calls` is present only when the list is non-empty. */
  function AssistantMessage(turnId: string, messageId: string, content: string, toolCalls: seq<ToolCall>, now: Instant): (m: Message)
    ensures m.role == Assistant && m.messageId == Some(messageId) && m.turnId == Some(turnId)
    ensures m.timestamp.Some? && (IsAnnouncer(m) <==> toolCalls != [])
  {
    Message(Assistant, content, toolCalls, "", None, Some(messageId), Some(turnId), None, Some(now.iso))
  }

  /** The tool message; `error` is stored only when it is non-empty. */
  function ToolResultMessage(turnId: string, messageId: string, toolCallId: string, toolName: string,
                             result: Json, error: string, now: Instant): (m: Message)
    ensures m.role == Tool && m.toolCallId == toolCallId && m.name == Some(toolName)
    ensures m.messageId == Some(messageId) && m.turnId == Some(turnId) && m.timestamp.Some?
    ensures m.error.Some? <==> error != ""
  {
    Message(Tool, Render(result), [], toolCallId, Some(toolName), Some(messageId), Some(turnId),
      if error != "" then Some(error) else None, Some(now.iso))
  }

  function Elems(s: seq<string>): set<string> {
    set x | x in s
  }

  predicate NoDuplicates(s: seq<string>) {
    forall i, j :: 0 <= i < j < |s| ==> s[i] != s[j]
  }

  /** The metadata after an accepted tool result for `toolCallId`. */
  function Recorded(t: TurnMetadata, toolCallId: string, now: Instant): (r: TurnMetadata)
    ensures Elems(r.completedToolResults) == Elems(t.completedToolResults) + {toolCallId}
    ensures NoDuplicates(t.completedToolResults) ==> NoDuplicates(r.completedToolResults)
    ensures r.isComplete <==> t.isComplete || Elems(r.completedToolResults) == Elems(t.toolCallIds)
    ensures r.turnId == t.turnId && r.toolCallIds == t.toolCallIds
  {
    var completed := if toolCallId in t.completedToolResults then t.completedToolResults
                     else t.completedToolResults + [toolCallId];
    var t' := t.(completedToolResults := completed);
    if Elems(completed) == Elems(t.toolCallIds) then t'.(isComplete := true, completedAt := Some(now.iso)) else t'
  }

  function ForceCompleted(t: TurnMetadata, now: Instant): TurnMetadata {
    t.(isComplete := true, completedAt := Some(now.iso))
  }

  /** `age_minutes > max_age_minutes`, with the age in exact microseconds. */
  predicate Stale(t: TurnMetadata, maxAgeMinutes: int, now: Instant) {
    now.micros - t.createdAt.micros > maxAgeMinutes * MicrosPerMinute
  }

  /** The turns `cleanup_active_turns` keeps. */
  function Swept(turns: map<string, TurnMetadata>, maxAgeMinutes: int, now: Instant): (r: map<string, TurnMetadata>)
    ensures forall id :: id in r <==> id in turns && !Stale(turns[id], maxAgeMinutes, now)
    ensures forall id :: id in r ==> r[id] == turns[id]
  {
    map id | id in turns && !Stale(turns[id], maxAgeMinutes, now) :: turns[id]
  }

  // ---------------------------------------------------------------- the sweep under the turn lock

  /**
    `force_complete_turn` entered while the chat's turn lock is `held`. An
    `asyncio.Lock` is not reentrant: when the caller itself holds it, the call
    waits for ever (None). With the lock free, a known turn is marked complete.
   */
  function ForceCompleteUnderLock(held: bool, turns: map<string, TurnMetadata>, id: string, now: Instant)
    : (r: Option<map<string, TurnMetadata>>)
    ensures r.None? <==> held
    ensures r.Some? ==> r.value.Keys == turns.Keys
  {
    if held then None
    else if id in turns then Some(turns[id := ForceCompleted(turns[id], now)])
    else Some(turns)
  }

  /** The removal loop of `cleanup_active_turns`: each id of `toRemove` is force-completed, then deleted. */
  function RemoveEach(held: bool, turns: map<string, TurnMetadata>, toRemove: seq<string>, now: Instant)
    : Option<map<string, TurnMetadata>>
    decreases |toRemove|
  {
    if toRemove == [] then Some(turns)
    else match ForceCompleteUnderLock(held, turns, toRemove[0], now)
      case None => None
      case Some(t) => RemoveEach(held, t - {toRemove[0]}, toRemove[1..], now)
  }

  /**
    `cleanup_active_turns` as written: the removal loop runs inside
    `async with` the chat's turn lock, so every `force_complete_turn` call
    finds the lock held. `toRemove` lists the stale ids in dict order.
   */
  function SweepAsWritten(turns: map<string, TurnMetadata>, toRemove: seq<string>, now: Instant)
    : Option<map<string, TurnMetadata>>
  {
    RemoveEach(true, turns, toRemove, now)
  }

  /**
    As written, the sweep never finishes once a turn is stale; it finishes only
    when no turn is stale, and then it has nothing to remove.
   */
  lemma SweepBlocksOnStaleTurn(turns: map<string, TurnMetadata>, maxAgeMinutes: int, now: Instant, toRemove: seq<string>)
    requires forall id :: id in toRemove <==> id in turns && Stale(turns[id], maxAgeMinutes, now)
    ensures SweepAsWritten(turns, toRemove, now).None? <==> exists id :: id in turns && Stale(turns[id], maxAgeMinutes, now)
    ensures SweepAsWritten(turns, toRemove, now).Some? ==>
      SweepAsWritten(turns, toRemove, now).value == turns == Swept(turns, maxAgeMinutes, now)
  {
    if toRemove == [] {
      assert Swept(turns, maxAgeMinutes, now).Keys == turns.Keys;
    } else {
      assert toRemove[0] in toRemove;
    }
  }

  /** Without re-entering the lock, the loop deletes exactly the listed ids and leaves the other turns as they were. */
  lemma {:induction false} RemoveEachUnlocked(turns: map<string, TurnMetadata>, toRemove: seq<string>, now: Instant)
    ensures RemoveEach(false, turns, toRemove, now) == Some(map id | id in turns && id !in toRemove :: turns[id])
    decreases |toRemove|
  {
    if toRemove == [] {
      assert (map id | id in turns && id !in toRemove :: turns[id]) == turns;
    } else {
      var x := toRemove[0];
      var t := ForceCompleteUnderLock(false, turns, x, now).value;
      assert t - {x} == turns - {x};
      RemoveEachUnlocked(turns - {x}, toRemove[1..], now);
      assert forall id :: id in toRemove <==> id == x || id in toRemove[1..];
      assert (map id | id in turns - {x} && id !in toRemove[1..] :: (turns - {x})[id])
          == (map id | id in turns && id !in toRemove :: turns[id]);
    }
  }

  /**
    The sweep with a force-complete that does not take the lock again: it
    finishes, and keeps exactly `Swept`.
   */
  lemma SweepWithoutReentry(turns: map<string, TurnMetadata>, maxAgeMinutes: int, now: Instant, toRemove: seq<string>)
    requires forall id :: id in toRemove <==> id in turns && Stale(turns[id], maxAgeMinutes, now)
    ensures RemoveEach(false, turns, toRemove, now) == Some(Swept(turns, maxAgeMinutes, now))
  {
    RemoveEachUnlocked(turns, toRemove, now);
    assert (map id | id in turns && id !in toRemove :: turns[id]) == Swept(turns, maxAgeMinutes, now);
  }

  /** Every turn is filed under its own id and records each completed id once. */
  predicate TurnsWellFormed(turns: map<string, TurnMetadata>) {
    forall id :: id in turns ==> turns[id].turnId == id && NoDuplicates(turns[id].completedToolResults)
  }

  predicate AllWellFormed(index: map<string, map<string, TurnMetadata>>) {
    forall c :: c in index ==> TurnsWellFormed(index[c])
  }

  /** Filing a well-formed turn under its own id keeps the index well formed. */
  lemma FileTurn(index: map<string, map<string, TurnMetadata>>, chat: string, turns: map<string, TurnMetadata>, t: TurnMetadata)
    requires AllWellFormed(index) && TurnsWellFormed(turns)
    requires NoDuplicates(t.completedToolResults)
    ensures AllWellFormed(index[chat := turns[t.turnId := t]])
  {
  }

  /** Whether the stored chat state is truthy, so that `get_chat_state` returns it. */
  predicate HasState(stored: map<string, Blob<Json>>, chat: string) {
    chat in stored && stored[chat].Stored? && Truthy(stored[chat].value)
  }

  /** The stored states after `get_chat_state`: a default state is written when none is truthy. */
  function AfterRead(stored: map<string, Blob<Json>>, chat: string, now: Instant): map<string, Blob<Json>> {
    if HasState(stored, chat) then stored else stored[chat := Stored(JObject(WithMeta(DefaultState(chat, now), now.iso, 1)))]
  }

  lemma OverwriteAfterRead(stored: map<string, Blob<Json>>, chat: string, now: Instant, x: Blob<Json>)
    ensures AfterRead(stored, chat, now)[chat := x] == stored[chat := x]
  {
  }

  /** The state `update_chat_state` writes over the current state, or why it cannot. */
  function UpdatedFrom(current: Json, update: seq<Field>, now: Instant): Result<Json> {
    if !current.JObject? then Err(InvalidChatState)
    else
      var merged := Merged(current.fields, update, now);
      match NextVersion(merged)
      case Err(e) => Err(e)
      case Ok(v) => Ok(JObject(WithMeta(merged, now.iso, v)))
  }

  function UpdatedState(stored: map<string, Blob<Json>>, chat: string, update: seq<Field>, now: Instant): Result<Json> {
    UpdatedFrom(CurrentState(stored, chat, now), update, now)
  }

  /**
    What an update keeps: the updated keys take their new values, the other
    keys of the current state are kept, `updated_at` and `last_updated` are
    stamped and `version` is one more than before.
   */
  lemma UpdatedStateSpec(stored: map<string, Blob<Json>>, chat: string, update: seq<Field>, now: Instant, k: string)
    requires UniqueKeys(update) && UpdatedState(stored, chat, update, now).Ok?
    ensures var r := UpdatedState(stored, chat, update, now).value;
      var current := CurrentState(stored, chat, now);
      && r.JObject? && current.JObject?
      && Get(r.fields, "last_updated") == Some(JStr(now.iso))
      && (k != "last_updated" && k != "version" ==>
            Get(r.fields, k) == if k == "updated_at" then Some(JStr(now.iso))
                                else if HasKey(update, k) then Get(update, k) else Get(current.fields, k))
      && (Get(Merged(current.fields, update, now), "version") == None ==> Get(r.fields, "version") == Some(JInt(1)))
  {
    var current := CurrentState(stored, chat, now);
    var merged := Merged(current.fields, update, now);
    var v := NextVersion(merged).value;
    assert Get(merged, "version") == None ==> !HasKey(merged, "version");
    if k != "last_updated" && k != "version" {
      WithMetaKeeps(merged, now.iso, v, k);
      if k != "updated_at" {
        MergedKeys(current.fields, update, now, k);
      }
    }
  }

  /** `ChatState.create_default(chat_id).dict()`. */
  function DefaultState(chat: string, now: Instant): (fs: seq<Field>)
    ensures !HasKey(fs, "version") && Truthy(JObject(fs))
    ensures Get(fs, "chat_id") == Some(JStr(chat))
  {
    var fs := [Field("chat_id", JStr(chat)), Field("created_at", JStr(now.iso)), Field("updated_at", JStr(now.iso)),
               Field("user_preferences", JObject([])), Field("conversation_context", JObject([]))];
    assert Keys(fs) == ["chat_id", "created_at", "updated_at", "user_preferences", "conversation_context"];
    fs
  }

  /** The chat state `get_chat_state` hands back: the stored one when truthy, a fresh default otherwise. */
  function CurrentState(stored: map<string, Blob<Json>>, chat: string, now: Instant): Json {
    if chat in stored && stored[chat].Stored? && Truthy(stored[chat].value) then stored[chat].value
    else JObject(DefaultState(chat, now))
  }

  /** `current_state.update(state_update)` followed by `current_state["updated_at"] = now`. */
  function Merged(current: seq<Field>, update: seq<Field>, now: Instant): (r: seq<Field>)
    ensures Get(r, "updated_at") == Some(JStr(now.iso))
  {
    GetSet(Update(current, update), "updated_at", JStr(now.iso), "updated_at");
    Set(Update(current, update), "updated_at", JStr(now.iso))
  }

  /** After the merge a key holds its value from the update when the update has it, and its old value otherwise. */
  lemma MergedKeys(current: seq<Field>, update: seq<Field>, now: Instant, k: string)
    requires UniqueKeys(update) && k != "updated_at"
    ensures Get(Merged(current, update, now), k) == if HasKey(update, k) then Get(update, k) else Get(current, k)
  {
    GetSet(Update(current, update), "updated_at", JStr(now.iso), k);
    GetUpdate(current, update, k);
  }

  /** The entry `add_tool_call` builds: `result` only when not None, `error` only when non-empty. */
  function ToolCallRecord(toolCallId: string, toolName: string, arguments: Json, result: Json, error: string, now: Instant): (r: ToolRecord)
    ensures r.toolCallId == toolCallId && r.timestamp == Some(now.iso)
    ensures r.result.Some? <==> result != JNull
    ensures r.error.Some? <==> error != ""
  {
    ToolRecord(toolCallId, toolName, arguments, if result != JNull then Some(result) else None,
      if error != "" then Some(error) else None, Some(now.iso))
  }

  // ---------------------------------------------------------------- the history read path

  /** With `include_tool_calls` off, tool messages and messages carrying `tool_calls` are dropped. */
  predicate NoToolTraffic(m: Message) { m.role != Tool && m.toolCalls == [] }

  /** The repair pass, or with `include_tool_calls` off the filter that drops tool traffic. */
  function Tooled(sorted: seq<Message>, includeTools: bool): seq<Message> {
    if includeTools then Repaired(sorted) else Filter(sorted, NoToolTraffic)
  }

  /** The turn window, applied only when `k_turns` is given. */
  function Windowed(p: seq<Message>, kTurns: Option<int>): seq<Message> {
    if kTurns.Some? then Window(p, kTurns) else p
  }

  /** `if limit and len(h) > limit: h = h[-limit:]`. */
  function Limited(p: seq<Message>, limit: Option<int>): seq<Message> {
    if limit.Some? && limit.value != 0 && |p| > limit.value then SliceFrom(p, -limit.value) else p
  }

  /**
    `get_chat_history` after the storage read: sort by timestamp, repair (or
    drop tool traffic), keep the last `k_turns` turns when `k_turns` is given,
    and finally keep the last `limit` messages when `limit` is truthy and exceeded.
   */
  function HistoryView(raw: seq<Message>, limit: Option<int>, kTurns: Option<int>, includeTools: bool): seq<Message> {
    if raw == [] then []
    else Limited(Windowed(Tooled(SortBy(raw, TimestampKey, StrLe), includeTools), kTurns), limit)
  }

  /** Every element of a subsequence is an element of the sequence, so it keeps any property they all have. */
  lemma SubseqKeeps<T>(a: seq<T>, b: seq<T>, p: T -> bool)
    requires IsSubseq(a, b) && forall i :: 0 <= i < |b| ==> p(b[i])
    ensures forall i :: 0 <= i < |a| ==> p(a[i])
  {
    var idx :| Embedding(idx, a, b);
    forall i | 0 <= i < |a| ensures p(a[i]) {
      assert a[i] == b[idx[i]];
    }
  }

  lemma TooledSpec(sorted: seq<Message>, includeTools: bool)
    ensures IsSubseq(Tooled(sorted, includeTools), sorted)
    ensures !includeTools ==> forall i :: 0 <= i < |Tooled(sorted, includeTools)| ==> NoToolTraffic(Tooled(sorted, includeTools)[i])
  {
    if includeTools {
      RepairedIsSubseq(sorted);
    } else {
      FilterIsSubseq(sorted, NoToolTraffic);
    }
  }

  lemma WindowedSpec(p: seq<Message>, kTurns: Option<int>)
    ensures IsSubseq(Windowed(p, kTurns), p)
  {
    if kTurns.Some? {
      WindowIsSubseq(p, kTurns);
    } else {
      SubseqRefl(p);
    }
  }

  lemma LimitedSpec(p: seq<Message>, limit: Option<int>)
    ensures IsSubseq(Limited(p, limit), p)
    ensures limit.Some? && limit.value > 0 ==> |Limited(p, limit)| <= limit.value
  {
    if limit.Some? && limit.value != 0 && |p| > limit.value {
      if limit.value > 0 {
        SuffixIsSubseq(p, |p| - limit.value);
      } else {
        SuffixIsSubseq(p, Min(-limit.value, |p|));
      }
    } else {
      SubseqRefl(p);
    }
  }

  /** The view keeps messages of the stored history in their order, respects a positive limit, and honours the tool switch. */
  lemma HistoryViewSpec(raw: seq<Message>, limit: Option<int>, kTurns: Option<int>, includeTools: bool)
    ensures IsSubseq(HistoryView(raw, limit, kTurns, includeTools), SortBy(raw, TimestampKey, StrLe))
    ensures limit.Some? && limit.value > 0 ==> |HistoryView(raw, limit, kTurns, includeTools)| <= limit.value
    ensures !includeTools ==>
      forall i :: 0 <= i < |HistoryView(raw, limit, kTurns, includeTools)| ==> NoToolTraffic(HistoryView(raw, limit, kTurns, includeTools)[i])
    ensures includeTools && kTurns.None? && limit.None? ==> HistoryView(raw, limit, kTurns, includeTools) == Repaired(SortBy(raw, TimestampKey, StrLe))
  {
    var sorted := SortBy(raw, TimestampKey, StrLe);
    if raw == [] {
      assert Embedding([], HistoryView(raw, limit, kTurns, includeTools), sorted);
      return;
    }
    var t := Tooled(sorted, includeTools);
    var w := Windowed(t, kTurns);
    var r := Limited(w, limit);
    TooledSpec(sorted, includeTools);
    WindowedSpec(t, kTurns);
    LimitedSpec(w, limit);
    SubseqTrans(w, t, sorted);
    SubseqTrans(r, w, sorted);
    if !includeTools {
      SubseqTrans(r, w, t);
      SubseqKeeps(r, t, NoToolTraffic);
    }
  }

  /** The pipeline as the code runs it, on the list the storage returned. */
  method ShapeHistory(raw: seq<Message>, limit: Option<int>, kTurns: Option<int>, includeTools: bool) returns (r: seq<Message>)
    ensures r == HistoryView(raw, limit, kTurns, includeTools)
  {
    if raw == [] {
      return [];
    }
    StrLeIsTotalOrder();
    var sorted := Sort(raw, TimestampKey, StrLe);
    var repaired := RepairOrFilter(sorted, includeTools);
    r := WindowAndLimit(repaired, limit, kTurns);
  }

  /** The last two steps of the pipeline: the `k_turns` window, then the final limit. */
  method WindowAndLimit(p: seq<Message>, limit: Option<int>, kTurns: Option<int>) returns (r: seq<Message>)
    ensures r == Limited(Windowed(p, kTurns), limit)
  {
    r := p;
    if kTurns.Some? {
      r := ExtractTurns(p, kTurns);
    }
    if limit.Some? && limit.value != 0 && |r| > limit.value {
      r := SliceFrom(r, -limit.value);
    }
  }

  method RepairOrFilter(sorted: seq<Message>, includeTools: bool) returns (r: seq<Message>)
    ensures r == Tooled(sorted, includeTools)
  {
    if includeTools {
      r := ValidateAndRepair(sorted);
    } else {
      r := Filter(sorted, NoToolTraffic);
    }
  }

  /** The turn after `add_assistant_message`. */
  function Announced(t: TurnMetadata, messageId: string, toolCalls: seq<ToolCall>, now: Instant): (r: TurnMetadata)
    ensures r.assistantMessageId == messageId && r.turnId == t.turnId
    ensures r.completedToolResults == t.completedToolResults
    ensures toolCalls != [] ==> r.toolCallIds == CallIds(toolCalls) && r.isComplete == t.isComplete
    ensures toolCalls == [] ==> r.toolCallIds == t.toolCallIds && r.isComplete
  {
    var t' := t.(assistantMessageId := messageId);
    if toolCalls != [] then t'.(toolCallIds := CallIds(toolCalls))
    else t'.(isComplete := true, completedAt := Some(now.iso))
  }

  /** The turn `turnId` exists and expects `toolCallId`. */
  predicate Expects(turns: map<string, TurnMetadata>, turnId: string, toolCallId: string) {
    turnId in turns && toolCallId in turns[turnId].toolCallIds
  }

  /** The state `redis.get_chat_state` returns, or `JNull` where it returns None. */
  function StoredState(stored: map<string, Blob<Json>>, chat: string): Json {
    if chat in stored && stored[chat].Stored? then stored[chat].value else JNull
  }

  /** What `storage.get_chat_history(chat, (limit or 5) * 2)` returns. */
  function StoredHistory(entries: seq<Blob<Message>>, limit: Option<int>): seq<Message> {
    SortBy(Recent(entries, 2 * LimitOr(limit, ChatHistoryLimit)), TimestampKey, StrLe)
  }

  // ---------------------------------------------------------------- the service

  class ChatStateService {
    const storage: RedisStorage
    var storeToolHistory: bool
    var includeToolCallsInHistory: bool
    var activeTurns: map<string, map<string, TurnMetadata>>

    ghost predicate Valid()
      reads this, storage.client
    {
      storage.client.Valid() && AllWellFormed(activeTurns)
    }

    constructor(storage: RedisStorage, storeToolHistory: bool, includeToolCallsInHistory: bool)
      requires storage.client.Valid()
      ensures Valid() && this.storage == storage && activeTurns == map[]
      ensures this.storeToolHistory == storeToolHistory && this.includeToolCallsInHistory == includeToolCallsInHistory
    {
      this.storage := storage;
      this.storeToolHistory := storeToolHistory;
      this.includeToolCallsInHistory := includeToolCallsInHistory;
      activeTurns := map[];
    }

    /** `self._active_turns[chat_id]`: a `defaultdict(dict)`, so a chat without turns has an empty index. */
    function TurnsOf(chat: string): map<string, TurnMetadata>
      reads this
    {
      if chat in activeTurns then activeTurns[chat] else map[]
    }

    /** `storage.add_chat_message` with a message that already carries its id and timestamp. */
    method Post(chat: string, m: Message, now: Instant, lockPolls: nat, lockId: string) returns (r: Outcome)
      requires storage.client.Valid() && m.messageId.Some? && m.timestamp.Some?
      modifies storage.client
      ensures storage.client.Valid()
      ensures r.Pass? <==> lockPolls > 0 && ChatWriteLock(chat) !in old(storage.client.locks)
      ensures r.Fail? ==> r.error == LockTimeout(ChatWriteLock(chat))
      ensures storage.client.Snapshot() == if r.Pass? then old(storage.client.Posted(chat, m)) else old(storage.client.Snapshot())
    {
      r := storage.AddChatMessage(chat, m, lockPolls, lockId, now);
    }

    /**
      `start_turn`: files a fresh turn under `turnId`, then stores the user
      message carrying both ids. The turn is filed even when the write fails.
     */
    method StartTurn(chat: string, userMessage: string, turnId: string, messageId: string, now: Instant,
                     lockPolls: nat, lockId: string) returns (r: Result<(string, string)>)
      requires Valid()
      modifies this, storage.client
      ensures Valid()
      ensures activeTurns == old(activeTurns)[chat := old(TurnsOf(chat))[turnId := NewTurn(turnId, messageId, now)]]
      ensures r.Ok? <==> lockPolls > 0 && ChatWriteLock(chat) !in old(storage.client.locks)
      ensures r.Ok? ==> r.value == (turnId, messageId)
      ensures r.Err? ==> r.error == LockTimeout(ChatWriteLock(chat))
      ensures storage.client.Snapshot() ==
        if r.Ok? then old(storage.client.Posted(chat, UserMessage(turnId, messageId, userMessage, now)))
        else old(storage.client.Snapshot())
      ensures storeToolHistory == old(storeToolHistory) && includeToolCallsInHistory == old(includeToolCallsInHistory)
    {
      activeTurns := activeTurns[chat := TurnsOf(chat)[turnId := NewTurn(turnId, messageId, now)]];
      var posted := Post(chat, UserMessage(turnId, messageId, userMessage, now), now, lockPolls, lockId);
      if posted.Fail? {
        return Err(posted.error);
      }
      return Ok((turnId, messageId));
    }

    /**
      `add_assistant_message`: an unknown turn is an error. Otherwise the turn
      records the new assistant message id and either expects the announced
      call ids (in order) or, with no tool calls, is complete; then the
      assistant message is stored.
     */
    method AddAssistantMessage(chat: string, turnId: string, content: string, toolCalls: seq<ToolCall>,
                               messageId: string, now: Instant, lockPolls: nat, lockId: string) returns (r: Result<string>)
      requires Valid()
      modifies this, storage.client
      ensures Valid()
      ensures turnId !in old(TurnsOf(chat)) ==>
        r == Err(TurnNotFound(turnId)) && activeTurns == old(activeTurns)[chat := old(TurnsOf(chat))]
        && storage.client.Snapshot() == old(storage.client.Snapshot())
      ensures turnId in old(TurnsOf(chat)) ==>
        activeTurns == old(activeTurns)[chat := old(TurnsOf(chat))[turnId := Announced(old(TurnsOf(chat))[turnId], messageId, toolCalls, now)]]
      ensures turnId in old(TurnsOf(chat)) ==>
        (r.Ok? <==> lockPolls > 0 && ChatWriteLock(chat) !in old(storage.client.locks))
      ensures turnId in old(TurnsOf(chat)) && r.Ok? ==> r.value == messageId
      ensures turnId in old(TurnsOf(chat)) && r.Ok? ==> storage.client.Snapshot() == old(storage.client.Posted(chat, AssistantMessage(turnId, messageId, content, toolCalls, now)))
      ensures turnId in old(TurnsOf(chat)) && r.Err? ==>
        r.error == LockTimeout(ChatWriteLock(chat)) && storage.client.Snapshot() == old(storage.client.Snapshot())
      ensures storeToolHistory == old(storeToolHistory) && includeToolCallsInHistory == old(includeToolCallsInHistory)
    {
      var turns := TurnsOf(chat);
      if turnId !in turns {
        activeTurns := activeTurns[chat := turns];
        return Err(TurnNotFound(turnId));
      }
      activeTurns := activeTurns[chat := turns[turnId := Announced(turns[turnId], messageId, toolCalls, now)]];
      var posted := Post(chat, AssistantMessage(turnId, messageId, content, toolCalls, now), now, lockPolls, lockId);
      if posted.Fail? {
        return Err(posted.error);
      }
      return Ok(messageId);
    }

    /**
      `add_tool_result`: a result for an unknown turn or for an id the turn
      does not expect is refused with `false`, changing nothing. Otherwise the
      tool message is stored, the id is recorded as completed (once), and the
      answer is whether every expected id has now completed.
     */
    method AddToolResult(chat: string, turnId: string, toolCallId: string, toolName: string, result: Json, error: string,
                         messageId: string, now: Instant, lockPolls: nat, lockId: string) returns (r: Result<bool>)
      requires Valid()
      modifies this, storage.client
      ensures Valid()
      ensures !Expects(old(TurnsOf(chat)), turnId, toolCallId) ==>
        r == Ok(false) && activeTurns == old(activeTurns)[chat := old(TurnsOf(chat))]
        && storage.client.Snapshot() == old(storage.client.Snapshot())
      ensures Expects(old(TurnsOf(chat)), turnId, toolCallId) ==>
        (r.Ok? <==> lockPolls > 0 && ChatWriteLock(chat) !in old(storage.client.locks))
      ensures Expects(old(TurnsOf(chat)), turnId, toolCallId) && r.Err? ==>
        r.error == LockTimeout(ChatWriteLock(chat)) && activeTurns == old(activeTurns)[chat := old(TurnsOf(chat))]
        && storage.client.Snapshot() == old(storage.client.Snapshot())
      ensures Expects(old(TurnsOf(chat)), turnId, toolCallId) && r.Ok? ==>
        var t' := Recorded(old(TurnsOf(chat))[turnId], toolCallId, now);
        && activeTurns == old(activeTurns)[chat := old(TurnsOf(chat))[turnId := t']]
        && (r.value <==> Elems(t'.completedToolResults) == Elems(t'.toolCallIds))
        && storage.client.Snapshot()
           == old(storage.client.Posted(chat, ToolResultMessage(turnId, messageId, toolCallId, toolName, result, error, now)))
      ensures storeToolHistory == old(storeToolHistory) && includeToolCallsInHistory == old(includeToolCallsInHistory)
    {
      var turns := TurnsOf(chat);
      activeTurns := activeTurns[chat := turns];
      if turnId !in turns || toolCallId !in turns[turnId].toolCallIds {
        return Ok(false);
      }
      var m := ToolResultMessage(turnId, messageId, toolCallId, toolName, result, error, now);
      var posted := Post(chat, m, now, lockPolls, lockId);
      if posted.Fail? {
        return Err(posted.error);
      }
      var t := Recorded(turns[turnId], toolCallId, now);
      FileTurn(old(activeTurns), chat, turns, t);
      activeTurns := activeTurns[chat := turns[turnId := t]];
      return Ok(Elems(t.completedToolResults) == Elems(t.toolCallIds));
    }

    /** `force_complete_turn`: marks a known turn complete and keeps it in the index. */
    method ForceCompleteTurn(chat: string, turnId: string, now: Instant) returns (found: bool)
      requires Valid()
      modifies this
      ensures Valid()
      ensures found <==> turnId in old(TurnsOf(chat))
      ensures turnId in TurnsOf(chat) <==> found
      ensures found ==> TurnsOf(chat)[turnId].isComplete
      ensures activeTurns == old(activeTurns)[chat := if found then old(TurnsOf(chat))[turnId := ForceCompleted(old(TurnsOf(chat))[turnId], now)] else old(TurnsOf(chat))]
      ensures storeToolHistory == old(storeToolHistory) && includeToolCallsInHistory == old(includeToolCallsInHistory)
    {
      var turns := TurnsOf(chat);
      if turnId !in turns {
        activeTurns := activeTurns[chat := turns];
        return false;
      }
      activeTurns := activeTurns[chat := turns[turnId := ForceCompleted(turns[turnId], now)]];
      return true;
    }

    /** `cleanup_active_turns`: removes the chat's turns older than `maxAgeMinutes`, as one step. */
    method CleanupActiveTurns(chat: string, maxAgeMinutes: int, now: Instant)
      requires Valid()
      modifies this
      ensures Valid()
      ensures activeTurns == old(activeTurns)[chat := Swept(old(TurnsOf(chat)), maxAgeMinutes, now)]
      ensures storeToolHistory == old(storeToolHistory) && includeToolCallsInHistory == old(includeToolCallsInHistory)
    {
      var turns := TurnsOf(chat);
      var toRemove: set<string> := {};
      var todo := turns.Keys;
      while todo != {}
        invariant todo <= turns.Keys
        invariant forall id :: id in toRemove <==> id in turns && id !in todo && Stale(turns[id], maxAgeMinutes, now)
        decreases |todo|
      {
        var id :| id in todo;
        if Stale(turns[id], maxAgeMinutes, now) {
          toRemove := toRemove + {id};
        }
        todo := todo - {id};
      }
      activeTurns := activeTurns[chat := turns - toRemove];
      assert turns - toRemove == Swept(turns, maxAgeMinutes, now);
    }

    /**
      `get_chat_history`: sweeps stale turns, reads twice the effective limit
      from the storage and shapes it with `HistoryView`; `include_tool_calls`
      defaults to the service setting.
     */
    method GetChatHistory(chat: string, limit: Option<int>, kTurns: Option<int>, includeToolCalls: Option<bool>, now: Instant)
      returns (r: seq<Message>)
      requires Valid()
      modifies this
      ensures Valid()
      ensures activeTurns == old(activeTurns)[chat := Swept(old(TurnsOf(chat)), CleanupMaxAgeMinutes, now)]
      ensures r == HistoryView(StoredHistory(storage.client.HistoryOf(chat), limit), limit, kTurns,
                               includeToolCalls.GetOr(includeToolCallsInHistory))
      ensures storeToolHistory == old(storeToolHistory) && includeToolCallsInHistory == old(includeToolCallsInHistory)
    {
      CleanupActiveTurns(chat, CleanupMaxAgeMinutes, now);
      r := ReadHistory(chat, limit, kTurns, includeToolCalls.GetOr(includeToolCallsInHistory));
    }

    /** The read part of `get_chat_history`: twice the effective limit from the storage, then `HistoryView`. */
    method ReadHistory(chat: string, limit: Option<int>, kTurns: Option<int>, withTools: bool) returns (r: seq<Message>)
      ensures r == HistoryView(StoredHistory(storage.client.HistoryOf(chat), limit), limit, kTurns, withTools)
    {
      var rawLimit := LimitOr(limit, ChatHistoryLimit);
      assert LimitOr(Some(rawLimit * 2), ChatHistoryLimit) == 2 * rawLimit;
      var raw := storage.GetChatHistory(chat, Some(rawLimit * 2));
      assert raw == StoredHistory(storage.client.HistoryOf(chat), limit);
      r := ShapeHistory(raw, limit, kTurns, withTools);
    }

    /** `get_chat_state`: the stored state when it is truthy; otherwise a default state, which is also stored. */
    method GetChatState(chat: string, now: Instant) returns (state: Json)
      requires Valid()
      modifies storage.client
      ensures Valid()
      ensures state == CurrentState(old(storage.client.state), chat, now)
      ensures storage.client.state == AfterRead(old(storage.client.state), chat, now)
      ensures storage.client.history == old(storage.client.history) && storage.client.toolHistory == old(storage.client.toolHistory)
      ensures storage.client.msgCounter == old(storage.client.msgCounter) && storage.client.locks == old(storage.client.locks)
    {
      var stored := storage.GetChatState(chat);
      if stored.Some? && Truthy(stored.value) {
        return stored.value;
      }
      var default := DefaultState(chat, now);
      var _ := storage.SetChatState(chat, default, now);
      return JObject(default);
    }

    /**
      `update_chat_state`: merges the update into the current state, stamps
      `updated_at` and stores it, which bumps `version`. A current state that
      is not an object cannot be updated; the default state the read wrote stays.
     */
    method UpdateChatState(chat: string, update: seq<Field>, now: Instant) returns (r: Outcome)
      requires Valid() && UniqueKeys(update)
      modifies storage.client
      ensures Valid()
      ensures r.Pass? <==> UpdatedState(old(storage.client.state), chat, update, now).Ok?
      ensures r.Pass? ==>
        storage.client.state == old(storage.client.state)[chat := Stored(UpdatedState(old(storage.client.state), chat, update, now).value)]
      ensures r.Fail? ==>
        r.error == UpdatedState(old(storage.client.state), chat, update, now).error
        && storage.client.state == AfterRead(old(storage.client.state), chat, now)
      ensures storage.client.history == old(storage.client.history) && storage.client.toolHistory == old(storage.client.toolHistory)
      ensures storage.client.msgCounter == old(storage.client.msgCounter) && storage.client.locks == old(storage.client.locks)
    {
      ghost var s0 := storage.client.state;
      var current := GetChatState(chat, now);
      assert UpdatedState(s0, chat, update, now) == UpdatedFrom(current, update, now);
      r := StoreUpdate(chat, current, update, now);
      if r.Pass? {
        OverwriteAfterRead(s0, chat, now, Stored(UpdatedFrom(current, update, now).value));
      }
    }

    /** The part of `update_chat_state` after the read. */
    method StoreUpdate(chat: string, current: Json, update: seq<Field>, now: Instant) returns (r: Outcome)
      requires Valid()
      modifies storage.client
      ensures Valid()
      ensures r.Pass? <==> UpdatedFrom(current, update, now).Ok?
      ensures r.Pass? ==> storage.client.state == old(storage.client.state)[chat := Stored(UpdatedFrom(current, update, now).value)]
      ensures r.Fail? ==> r.error == UpdatedFrom(current, update, now).error && storage.client.state == old(storage.client.state)
      ensures storage.client.history == old(storage.client.history) && storage.client.toolHistory == old(storage.client.toolHistory)
      ensures storage.client.msgCounter == old(storage.client.msgCounter) && storage.client.locks == old(storage.client.locks)
    {
      if !current.JObject? {
        return Fail(InvalidChatState);
      }
      var merged := Merged(current.fields, update, now);
      r := storage.SetChatState(chat, merged, now);
    }

    /** `get_tool_history`: nothing when the tool history is switched off, else the last `limit or 100` records. */
    method GetToolHistory(chat: string, limit: Option<int>) returns (r: seq<ToolRecord>)
      ensures !storeToolHistory ==> r == []
      ensures storeToolHistory ==>
        r == SortBy(Recent(storage.client.ToolHistoryOf(chat), LimitOr(limit, ToolHistoryLimit)), ToolTimestampKey, StrLe)
    {
      if !storeToolHistory {
        return [];
      }
      r := storage.GetToolHistory(chat, Some(LimitOr(limit, ToolHistoryLimit)));
    }

    /**
      `add_tool_call`: when the tool history is on, stores the audit record and
      then trims the chat history and the tool history of the chat to their
      last 100 entries. Failures are logged and swallowed.
     */
    method AddToolCall(chat: string, toolName: string, toolCallId: string, arguments: Json, result: Json, error: string,
                       now: Instant, writePolls: nat, writeId: string, trimPolls: nat, trimId: string)
      requires Valid()
      modifies storage.client
      ensures Valid()
      ensures !storeToolHistory || writePolls == 0 || ToolWriteLock(chat) in old(storage.client.locks) ==>
        storage.client.Snapshot() == old(storage.client.Snapshot())
      ensures storeToolHistory && writePolls > 0 && ToolWriteLock(chat) !in old(storage.client.locks) ==>
        var tools := old(storage.client.toolHistory)[chat := AppendToolIfNew(old(storage.client.ToolHistoryOf(chat)),
                                                                             ToolCallRecord(toolCallId, toolName, arguments, result, error, now))];
        && storage.client.state == old(storage.client.state) && storage.client.msgCounter == old(storage.client.msgCounter)
        && storage.client.locks == old(storage.client.locks)
        && (trimPolls == 0 || TrimLock(chat) in old(storage.client.locks) ==>
              storage.client.toolHistory == tools && storage.client.history == old(storage.client.history))
        && (trimPolls > 0 && TrimLock(chat) !in old(storage.client.locks) ==>
              && storage.client.toolHistory == Trimmed(tools, chat, -ToolHistoryLimit, -1)
              && storage.client.history == Trimmed(old(storage.client.history), chat, -ToolHistoryLimit, -1))
    {
      if !storeToolHistory {
        return;
      }
      var record := ToolCallRecord(toolCallId, toolName, arguments, result, error, now);
      var written := storage.AddToolCall(chat, record, writePolls, writeId, now);
      if written.Fail? {
        return;
      }
      var _ := storage.TrimHistory(chat, ToolHistoryLimit, trimPolls, trimId);
    }

    /**
      `clear_chat_data`: empties the chat's turn index, resets its state to a
      fresh default and deletes both of its lists. The message counter is left
      as it was.
     */
    method ClearChatData(chat: string, now: Instant, trimPolls: nat, trimId: string) returns (r: Outcome)
      requires Valid()
      modifies this, storage.client
      ensures Valid()
      ensures activeTurns == old(activeTurns)[chat := map[]]
      ensures storage.client.state == old(storage.client.state)[chat := Stored(JObject(WithMeta(DefaultState(chat, now), now.iso, 1)))]
      ensures r.Pass? <==> trimPolls > 0 && TrimLock(chat) !in old(storage.client.locks)
      ensures r.Pass? ==> storage.client.history == old(storage.client.history) - {chat}
      ensures r.Pass? ==> storage.client.toolHistory == old(storage.client.toolHistory) - {chat}
      ensures r.Fail? ==> storage.client.history == old(storage.client.history)
      ensures r.Fail? ==> storage.client.toolHistory == old(storage.client.toolHistory)
      ensures r.Fail? ==> r.error == LockTimeout(TrimLock(chat))
      ensures storage.client.msgCounter == old(storage.client.msgCounter) && storage.client.locks == old(storage.client.locks)
      ensures storeToolHistory == old(storeToolHistory) && includeToolCallsInHistory == old(includeToolCallsInHistory)
    {
      activeTurns := activeTurns[chat := map[]];
      var initial := DefaultState(chat, now);
      assert NextVersion(initial) == Ok(1);
      var _ := storage.SetChatState(chat, initial, now);
      assert storage.client.state == old(storage.client.state)[chat := Stored(JObject(WithMeta(initial, now.iso, 1)))];
      r := storage.TrimHistory(chat, 0, trimPolls, trimId);
    }

    /** `configure_tool_call_handling`. */
    method Configure(includeInHistory: bool, storeToolHistory: bool)
      modifies this
      ensures this.includeToolCallsInHistory == includeInHistory && this.storeToolHistory == storeToolHistory
      ensures activeTurns == old(activeTurns)
    {
      this.includeToolCallsInHistory := includeInHistory;
      this.storeToolHistory := storeToolHistory;
    }
  }
}
