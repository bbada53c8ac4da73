/**
  The Redis backend: an in-memory model of the Redis keyspace the storage
  uses, the distributed lock, the retry wrapper and the storage operations.

  Every chat owns five keys, `chat_state:{chat}`, `chat_history:{chat}`,
  `tool_history:{chat}`, `turn_counter:{chat}` and `msg_counter:{chat}`
  (`KeysOfChatAreDistinct` shows that no two of them coincide), so the
  keyspace is modelled as one map per key family, indexed by chat id. Lock
  keys are kept verbatim. A stored JSON text either parses to a value or is
  corrupt (`Blob`); Redis deletes a list when it becomes empty, so a list that
  exists is never empty (`RedisClient.Valid`).
 */
module Redis {
  import opened Wrappers
  import opened PyStr
  import opened Json
  import opened Messages
  import opened Sorting

  /** A stored JSON text: it parses to `value`, or it does not parse. */
  datatype Blob<+T> = Stored(value: T) | Corrupt

  /** `settings.chat_history_limit`. */
  const ChatHistoryLimit := 5
  /** The default of `settings.tool_history_limit`, which the settings do not define. */
  const ToolHistoryLimit := 100

  // ---------------------------------------------------------------- keys

  function StateKey(chat: string): string { "chat_state:" + chat }
  function HistoryKey(chat: string): string { "chat_history:" + chat }
  function ToolHistoryKey(chat: string): string { "tool_history:" + chat }
  function TurnCounterKey(chat: string): string { "turn_counter:" + chat }
  function MessageCounterKey(chat: string): string { "msg_counter:" + chat }

  function LockKey(name: string): string { "lock:" + name }
  function ChatWriteLock(chat: string): string { LockKey("chat_write:" + chat) }
  function ToolWriteLock(chat: string): string { LockKey("tool_write:" + chat) }
  function TrimLock(chat: string): string { LockKey("trim:" + chat) }
  function TurnLock(chat: string): string { LockKey("turn:" + chat) }

  /** Two strings with different characters at a position inside both differ, whatever follows. */
  lemma DifferAt(a: string, b: string, x: string, y: string, i: nat)
    requires i < |a| && i < |b| && a[i] != b[i]
    ensures a + x != b + y
  {
    assert (a + x)[i] == a[i] && (b + y)[i] == b[i];
  }

  /** The five keys of any two chats never coincide across families. */
  lemma KeysOfChatAreDistinct(c1: string, c2: string)
    ensures StateKey(c1) != HistoryKey(c2) && StateKey(c1) != ToolHistoryKey(c2)
    ensures StateKey(c1) != TurnCounterKey(c2) && StateKey(c1) != MessageCounterKey(c2)
    ensures HistoryKey(c1) != ToolHistoryKey(c2) && HistoryKey(c1) != TurnCounterKey(c2)
    ensures HistoryKey(c1) != MessageCounterKey(c2) && ToolHistoryKey(c1) != TurnCounterKey(c2)
    ensures ToolHistoryKey(c1) != MessageCounterKey(c2) && TurnCounterKey(c1) != MessageCounterKey(c2)
  {
    DifferAt("chat_state:", "chat_history:", c1, c2, 5);
    DifferAt("chat_state:", "tool_history:", c1, c2, 0);
    DifferAt("chat_state:", "turn_counter:", c1, c2, 0);
    DifferAt("chat_state:", "msg_counter:", c1, c2, 0);
    DifferAt("chat_history:", "tool_history:", c1, c2, 0);
    DifferAt("chat_history:", "turn_counter:", c1, c2, 0);
    DifferAt("chat_history:", "msg_counter:", c1, c2, 0);
    DifferAt("tool_history:", "turn_counter:", c1, c2, 1);
    DifferAt("tool_history:", "msg_counter:", c1, c2, 0);
    DifferAt("turn_counter:", "msg_counter:", c1, c2, 0);
  }

  /**
    The four write operations lock different keys, so for the same chat a
    message append, a tool-call append, a trim and a turn operation do not
    exclude one another; only operations of the same kind are serialised.
   */
  lemma LockKindsAreDistinct(c1: string, c2: string)
    ensures ChatWriteLock(c1) != ToolWriteLock(c2) && ChatWriteLock(c1) != TrimLock(c2)
    ensures ChatWriteLock(c1) != TurnLock(c2) && ToolWriteLock(c1) != TrimLock(c2)
    ensures ToolWriteLock(c1) != TurnLock(c2) && TrimLock(c1) != TurnLock(c2)
  {
    assert forall x :: LockKey(x) == "lock:" + x;
    DifferAt("lock:chat_write:", "lock:tool_write:", c1, c2, 5);
    DifferAt("lock:chat_write:", "lock:trim:", c1, c2, 5);
    DifferAt("lock:chat_write:", "lock:turn:", c1, c2, 5);
    DifferAt("lock:tool_write:", "lock:trim:", c1, c2, 6);
    DifferAt("lock:tool_write:", "lock:turn:", c1, c2, 6);
    DifferAt("lock:trim:", "lock:turn:", c1, c2, 6);
    assert ChatWriteLock(c1) == "lock:chat_write:" + c1 by {
      assert "lock:" + ("chat_write:" + c1) == ("lock:" + "chat_write:") + c1;
    }
    assert ToolWriteLock(c1) == "lock:tool_write:" + c1 && ToolWriteLock(c2) == "lock:tool_write:" + c2 by {
      assert "lock:" + ("tool_write:" + c1) == ("lock:" + "tool_write:") + c1;
      assert "lock:" + ("tool_write:" + c2) == ("lock:" + "tool_write:") + c2;
    }
    assert TrimLock(c1) == "lock:trim:" + c1 && TrimLock(c2) == "lock:trim:" + c2 by {
      assert "lock:" + ("trim:" + c1) == ("lock:" + "trim:") + c1;
      assert "lock:" + ("trim:" + c2) == ("lock:" + "trim:") + c2;
    }
    assert TurnLock(c2) == "lock:turn:" + c2 by {
      assert "lock:" + ("turn:" + c2) == ("lock:" + "turn:") + c2;
    }
  }

  // ---------------------------------------------------------------- list index semantics

  /**
    Redis `LRANGE list start end` (and the range `LTRIM` keeps): negative
    indices count from the end, `start` is clamped at 0, `end` at the last
    index, and an empty range yields an empty list.
   */
  function LRange<T>(s: seq<T>, start: int, end: int): (r: seq<T>)
    ensures |r| <= |s|
  {
    var n := |s|;
    var a := Max(if start < 0 then n + start else start, 0);
    var b := Min(if end < 0 then n + end else end, n - 1);
    if a > b || a >= n then [] else s[a..b + 1]
  }

  /** `LRANGE key -n -1` with n > 0 is Python's `s[-n:]`: the last n entries, all of them when fewer. */
  lemma LRangeLast<T>(s: seq<T>, n: int)
    requires n > 0
    ensures LRange(s, -n, -1) == SliceFrom(s, -n)
    ensures |LRange(s, -n, -1)| == Min(n, |s|)
  {
  }

  /** `LRANGE key 0 -1` is the whole list. */
  lemma LRangeAll<T>(s: seq<T>)
    ensures LRange(s, 0, -1) == s
  {
  }

  /** The values of the entries that parse, in order. */
  function Parsed<T>(entries: seq<Blob<T>>): (r: seq<T>)
    ensures |r| <= |entries|
  {
    if entries == [] then []
    else Parsed(entries[..|entries| - 1]) + (if entries[|entries| - 1].Stored? then [entries[|entries| - 1].value] else [])
  }

  // ---------------------------------------------------------------- the keyspace

  /** The whole keyspace as one value. */
  datatype Keyspace = Keyspace(
    state: map<string, Blob<Json>>,
    history: map<string, seq<Blob<Message>>>,
    toolHistory: map<string, seq<Blob<ToolRecord>>>,
    msgCounter: map<string, int>,
    locks: map<string, string>)

  class RedisClient {
    var state: map<string, Blob<Json>>                 // chat_state:{chat}
    var history: map<string, seq<Blob<Message>>>        // chat_history:{chat}
    var toolHistory: map<string, seq<Blob<ToolRecord>>> // tool_history:{chat}
    var msgCounter: map<string, int>                    // msg_counter:{chat}
    var locks: map<string, string>                      // lock:{name} -> holder identifier

    /** Redis never keeps an empty list. */
    ghost predicate Valid()
      reads this
    {
      (forall c :: c in history ==> history[c] != []) && (forall c :: c in toolHistory ==> toolHistory[c] != [])
    }

    constructor()
      ensures state == map[] && history == map[] && toolHistory == map[] && msgCounter == map[] && locks == map[]
      ensures Valid()
    {
      state, history, toolHistory, msgCounter, locks := map[], map[], map[], map[], map[];
    }

    function Snapshot(): Keyspace
      reads this
    {
      Keyspace(state, history, toolHistory, msgCounter, locks)
    }

    /** `LRANGE chat_history:{chat} 0 -1`: a missing list reads as empty. */
    function HistoryOf(chat: string): seq<Blob<Message>>
      reads this
    {
      if chat in history then history[chat] else []
    }

    function ToolHistoryOf(chat: string): seq<Blob<ToolRecord>>
      reads this
    {
      if chat in toolHistory then toolHistory[chat] else []
    }

    function CounterOf(chat: string): int
      reads this
    {
      if chat in msgCounter then msgCounter[chat] else 0
    }

    /** `SET key value NX`: succeeds only when the key is absent. */
    method SetNX(key: string, value: string) returns (ok: bool)
      modifies this
      ensures ok <==> key !in old(locks)
      ensures locks == if ok then old(locks)[key := value] else old(locks)
      ensures state == old(state) && history == old(history) && toolHistory == old(toolHistory)
      ensures msgCounter == old(msgCounter)
    {
      ok := key !in locks;
      if ok {
        locks := locks[key := value];
      }
    }

    /** The release script: `DEL key` only if `GET key` equals `value`; returns the number of keys deleted. */
    method CompareAndDelete(key: string, value: string) returns (deleted: int)
      modifies this
      ensures deleted == 1 <==> key in old(locks) && old(locks)[key] == value
      ensures deleted == 0 || deleted == 1
      ensures locks == if deleted == 1 then old(locks) - {key} else old(locks)
      ensures state == old(state) && history == old(history) && toolHistory == old(toolHistory)
      ensures msgCounter == old(msgCounter)
    {
      if key in locks && locks[key] == value {
        locks := locks - {key};
        deleted := 1;
      } else {
        deleted := 0;
      }
    }

    /** `INCR msg_counter:{chat}`: a missing counter counts from 0. */
    method Incr(chat: string) returns (n: int)
      modifies this
      ensures n == old(CounterOf(chat)) + 1
      ensures msgCounter == old(msgCounter)[chat := n]
      ensures state == old(state) && history == old(history) && toolHistory == old(toolHistory)
      ensures locks == old(locks)
    {
      n := CounterOf(chat) + 1;
      msgCounter := msgCounter[chat := n];
    }

    /** `RPUSH chat_history:{chat} entry`, returning the new length. */
    method RPushHistory(chat: string, entry: Blob<Message>) returns (len: int)
      requires Valid()
      modifies this
      ensures Valid()
      ensures history == old(history)[chat := old(HistoryOf(chat)) + [entry]]
      ensures len == |history[chat]| && len >= 1
      ensures state == old(state) && toolHistory == old(toolHistory) && msgCounter == old(msgCounter)
      ensures locks == old(locks)
    {
      history := history[chat := HistoryOf(chat) + [entry]];
      len := |history[chat]|;
    }

    method RPushTool(chat: string, entry: Blob<ToolRecord>) returns (len: int)
      requires Valid()
      modifies this
      ensures Valid()
      ensures toolHistory == old(toolHistory)[chat := old(ToolHistoryOf(chat)) + [entry]]
      ensures len == |toolHistory[chat]| && len >= 1
      ensures state == old(state) && history == old(history) && msgCounter == old(msgCounter)
      ensures locks == old(locks)
    {
      toolHistory := toolHistory[chat := ToolHistoryOf(chat) + [entry]];
      len := |toolHistory[chat]|;
    }

    /** `LTRIM chat_history:{chat} start end`; a list trimmed to nothing is deleted. */
    method LTrimHistory(chat: string, start: int, end: int)
      requires Valid()
      modifies this
      ensures Valid()
      ensures history == Trimmed(old(history), chat, start, end)
      ensures state == old(state) && toolHistory == old(toolHistory) && msgCounter == old(msgCounter)
      ensures locks == old(locks)
    {
      history := Trimmed(history, chat, start, end);
    }

    method LTrimTool(chat: string, start: int, end: int)
      requires Valid()
      modifies this
      ensures Valid()
      ensures toolHistory == Trimmed(old(toolHistory), chat, start, end)
      ensures state == old(state) && history == old(history) && msgCounter == old(msgCounter)
      ensures locks == old(locks)
    {
      toolHistory := Trimmed(toolHistory, chat, start, end);
    }

    /** The keyspace after `m` is offered to the history of `chat`. */
    function Posted(chat: string, m: Message): Keyspace
      requires m.messageId.Some?
      reads this
    {
      Snapshot().(history := history[chat := AppendMessageIfNew(HistoryOf(chat), m)])
    }

    /** One operation of `atomic_turn_operation`, queued on the pipeline. */
    method ApplyTurnOp(chat: string, op: TurnOp, now: Instant)
      requires Valid()
      modifies this
      ensures Valid()
      ensures history == Appended(old(history), chat, OpMessage(op, now))
      ensures toolHistory == Appended(old(toolHistory), chat, OpTool(op, now))
      ensures state == StateAfter(old(state), chat, OpStateOf(op, now))
      ensures msgCounter == old(msgCounter) && locks == old(locks)
    {
      match op {
        case AddMessageOp(m) =>
          var _ := RPushHistory(chat, Stored(StampMessage(m, now)));
        case AddToolCallOp(t) =>
          var _ := RPushTool(chat, Stored(StampTool(t, now)));
        case UpdateStateOp(fields) =>
          SetState(chat, JObject(Set(fields, "last_updated", JStr(now.iso))));
        case UnknownOp =>
      }
    }

    /** The operations of `atomic_turn_operation`, queued on the pipeline in order. */
    method ApplyTurnOps(chat: string, ops: seq<TurnOp>, now: Instant)
      requires Valid()
      modifies this
      ensures Valid()
      ensures history == Appended(old(history), chat, OpMessages(ops, now))
      ensures toolHistory == Appended(old(toolHistory), chat, OpTools(ops, now))
      ensures state == StateAfter(old(state), chat, OpState(ops, now))
      ensures msgCounter == old(msgCounter) && locks == old(locks)
    {
      var i := 0;
      while i < |ops|
        invariant i <= |ops| && Valid()
        invariant history == Appended(old(history), chat, OpMessages(ops[..i], now))
        invariant toolHistory == Appended(old(toolHistory), chat, OpTools(ops[..i], now))
        invariant state == StateAfter(old(state), chat, OpState(ops[..i], now))
        invariant msgCounter == old(msgCounter) && locks == old(locks)
      {
        assert ops[..i + 1][..i] == ops[..i];
        AppendedTwice(old(history), chat, OpMessages(ops[..i], now), OpMessage(ops[i], now));
        AppendedTwice(old(toolHistory), chat, OpTools(ops[..i], now), OpTool(ops[i], now));
        ApplyTurnOp(chat, ops[i], now);
        i := i + 1;
      }
      assert ops[..i] == ops;
    }

    /** The duplicate check of `add_chat_message` followed by `RPUSH` when the id is new. */
    method AppendMessage(chat: string, m: Message)
      requires Valid() && m.messageId.Some?
      modifies this
      ensures Valid()
      ensures history == old(history)[chat := AppendMessageIfNew(old(HistoryOf(chat)), m)]
      ensures state == old(state) && toolHistory == old(toolHistory) && msgCounter == old(msgCounter)
      ensures locks == old(locks)
    {
      var duplicate := FindMessageId(HistoryOf(chat), m.messageId.value);
      if duplicate {
        assert chat in history;
        assert history == old(history)[chat := AppendMessageIfNew(old(HistoryOf(chat)), m)];
      } else {
        var _ := RPushHistory(chat, Stored(m));
      }
    }

    /** The duplicate check of `add_tool_call`, made only for a non-empty id, followed by `RPUSH`. */
    method AppendTool(chat: string, t: ToolRecord)
      requires Valid()
      modifies this
      ensures Valid()
      ensures toolHistory == old(toolHistory)[chat := AppendToolIfNew(old(ToolHistoryOf(chat)), t)]
      ensures state == old(state) && history == old(history) && msgCounter == old(msgCounter)
      ensures locks == old(locks)
    {
      var duplicate := false;
      if t.toolCallId != "" {
        duplicate := FindToolCallId(ToolHistoryOf(chat), t.toolCallId);
      }
      if duplicate {
        assert chat in toolHistory;
        assert toolHistory == old(toolHistory)[chat := AppendToolIfNew(old(ToolHistoryOf(chat)), t)];
      } else {
        var _ := RPushTool(chat, Stored(t));
      }
    }

    /** `SETEX chat_state:{chat} ttl value` (the expiry itself is not modelled). */
    method SetState(chat: string, value: Json)
      modifies this
      ensures state == old(state)[chat := Stored(value)]
      ensures history == old(history) && toolHistory == old(toolHistory) && msgCounter == old(msgCounter)
      ensures locks == old(locks)
    {
      state := state[chat := Stored(value)];
    }
  }

  /** The lists after `LTRIM` on `chat`: the kept range, or no list at all when the range is empty. */
  function Trimmed<T>(lists: map<string, seq<T>>, chat: string, start: int, end: int): (r: map<string, seq<T>>)
    ensures forall c :: c != chat ==> (c in r <==> c in lists) && (c in r ==> r[c] == lists[c])
    ensures chat in r <==> chat in lists && LRange(lists[chat], start, end) != []
    ensures chat in r ==> r[chat] == LRange(lists[chat], start, end)
  {
    if chat !in lists then lists
    else
      var kept := LRange(lists[chat], start, end);
      if kept == [] then lists - {chat} else lists[chat := kept]
  }

  // ---------------------------------------------------------------- the distributed lock

  class DistributedLock {
    const client: RedisClient
    const key: string
    const identifier: string
    var acquired: bool

    /** `DistributedLock(client, name)`; the random identifier is a parameter. */
    constructor(client: RedisClient, name: string, identifier: string)
      ensures this.client == client && key == LockKey(name) && this.identifier == identifier
      ensures !acquired
    {
      this.client := client;
      this.key := LockKey(name);
      this.identifier := identifier;
      acquired := false;
    }

    /**
      Polls `SET key identifier NX` until it succeeds; `polls` is how many
      times the deadline check passes. Nothing else writes the keyspace while
      it polls, so a lock held on entry is still held at the deadline.
     */
    method Acquire(polls: nat) returns (r: Outcome)
      modifies this, client
      ensures r.Pass? <==> polls > 0 && key !in old(client.locks)
      ensures r.Pass? ==> acquired && client.locks == old(client.locks)[key := identifier]
      ensures r.Fail? ==> r.error == LockTimeout(key) && acquired == old(acquired)
      ensures r.Fail? ==> client.locks == old(client.locks)
      ensures client.state == old(client.state) && client.history == old(client.history)
      ensures client.toolHistory == old(client.toolHistory) && client.msgCounter == old(client.msgCounter)
    {
      var remaining := polls;
      while remaining > 0
        invariant remaining <= polls
        invariant remaining < polls ==> key in old(client.locks)
        invariant client.locks == old(client.locks) && acquired == old(acquired)
        invariant client.state == old(client.state) && client.history == old(client.history)
        invariant client.toolHistory == old(client.toolHistory) && client.msgCounter == old(client.msgCounter)
      {
        var ok := client.SetNX(key, identifier);
        if ok {
          acquired := true;
          return Pass;
        }
        remaining := remaining - 1;
      }
      return Fail(LockTimeout(key));
    }

    /**
      Deletes the key only when it still holds this holder's identifier;
      `scriptFails` stands for an exception raised by the script call.
     */
    method Release(scriptFails: bool) returns (released: bool)
      modifies this, client
      ensures released <==> old(acquired) && !scriptFails && key in old(client.locks) && old(client.locks)[key] == identifier
      ensures client.locks == if released then old(client.locks) - {key} else old(client.locks)
      ensures acquired == (old(acquired) && !released)
      ensures client.state == old(client.state) && client.history == old(client.history)
      ensures client.toolHistory == old(client.toolHistory) && client.msgCounter == old(client.msgCounter)
    {
      if !acquired {
        return false;
      }
      if scriptFails {
        return false;
      }
      var deleted := client.CompareAndDelete(key, identifier);
      released := deleted != 0;
      if released {
        acquired := false;
      }
    }
  }

  // ---------------------------------------------------------------- retries

  /** What one attempt of a Redis round trip gives. */
  datatype Attempt<+T> = Succeeded(value: T) | ConnectionLost | OtherFailure

  /**
    `_execute_with_retry`: at most `maxRetries` attempts; a connection or
    timeout error is retried, any other error propagates at once, and when
    every attempt lost the connection the call fails. `made` is the number of
    attempts made.
   */
  method ExecuteWithRetry<T>(maxRetries: int, attempt: nat -> Attempt<T>) returns (r: Result<T>, made: nat)
    ensures made <= Max(maxRetries, 0)
    ensures forall i :: 0 <= i < made - 1 ==> attempt(i).ConnectionLost?
    ensures r.Ok? <==> made > 0 && attempt(made - 1).Succeeded?
    ensures r.Ok? ==> r.value == attempt(made - 1).value
    ensures r == Err(StorageFailure) <==> made > 0 && attempt(made - 1).OtherFailure?
    ensures r.Err? ==> r.error == StorageFailure || r.error == StorageUnavailable
    ensures r == Err(StorageUnavailable) ==>
      made == Max(maxRetries, 0) && forall i :: 0 <= i < made ==> attempt(i).ConnectionLost?
  {
    made := 0;
    while made < maxRetries
      invariant made <= Max(maxRetries, 0)
      invariant forall i :: 0 <= i < made ==> attempt(i).ConnectionLost?
    {
      var outcome := attempt(made);
      made := made + 1;
      match outcome
      case Succeeded(v) => return Ok(v), made;
      case OtherFailure => return Err(StorageFailure), made;
      case ConnectionLost =>
    }
    return Err(StorageUnavailable), made;
  }

  // ---------------------------------------------------------------- idempotent appends

  /** Some entry that parses carries the message id `id`. */
  predicate HasMessageId(entries: seq<Blob<Message>>, id: string) {
    exists i | 0 <= i < |entries| :: entries[i].Stored? && entries[i].value.messageId == Some(id)
  }

  /** The history after `add_chat_message` with the filled-in message `m`. */
  function AppendMessageIfNew(entries: seq<Blob<Message>>, m: Message): seq<Blob<Message>>
    requires m.messageId.Some?
  {
    if HasMessageId(entries, m.messageId.value) then entries else entries + [Stored(m)]
  }

  /** Adding the same message twice leaves the history as adding it once. */
  lemma AppendMessageIdempotent(entries: seq<Blob<Message>>, m: Message)
    requires m.messageId.Some?
    ensures AppendMessageIfNew(AppendMessageIfNew(entries, m), m) == AppendMessageIfNew(entries, m)
  {
    var once := AppendMessageIfNew(entries, m);
    if !HasMessageId(entries, m.messageId.value) {
      assert once[|entries|] == Stored(m);
    }
  }

  /** The history only grows, by at most one entry at the tail, and afterwards holds the id. */
  lemma AppendMessageGrowsByOne(entries: seq<Blob<Message>>, m: Message)
    requires m.messageId.Some?
    ensures var r := AppendMessageIfNew(entries, m);
      r[..|entries|] == entries && |entries| <= |r| <= |entries| + 1 && HasMessageId(r, m.messageId.value)
  {
    var r := AppendMessageIfNew(entries, m);
    if !HasMessageId(entries, m.messageId.value) {
      assert r[|entries|] == Stored(m);
    }
  }

  predicate HasToolCallId(entries: seq<Blob<ToolRecord>>, id: string) {
    exists i | 0 <= i < |entries| :: entries[i].Stored? && entries[i].value.toolCallId == id
  }

  /** The tool history after `add_tool_call`: the duplicate check applies only to a non-empty id. */
  function AppendToolIfNew(entries: seq<Blob<ToolRecord>>, t: ToolRecord): seq<Blob<ToolRecord>> {
    if t.toolCallId != "" && HasToolCallId(entries, t.toolCallId) then entries else entries + [Stored(t)]
  }

  lemma AppendToolIdempotent(entries: seq<Blob<ToolRecord>>, t: ToolRecord)
    requires t.toolCallId != ""
    ensures AppendToolIfNew(AppendToolIfNew(entries, t), t) == AppendToolIfNew(entries, t)
  {
    var once := AppendToolIfNew(entries, t);
    if !HasToolCallId(entries, t.toolCallId) {
      assert once[|entries|] == Stored(t);
    }
  }

  /** A record without a tool-call id is appended every time. */
  lemma AppendToolWithoutId(entries: seq<Blob<ToolRecord>>, t: ToolRecord)
    requires t.toolCallId == ""
    ensures AppendToolIfNew(AppendToolIfNew(entries, t), t) == entries + [Stored(t), Stored(t)]
  {
  }

  /** The scan over the stored messages for one with the same id; corrupt entries are skipped. */
  method FindMessageId(entries: seq<Blob<Message>>, id: string) returns (found: bool)
    ensures found <==> HasMessageId(entries, id)
  {
    var i := 0;
    while i < |entries|
      invariant i <= |entries|
      invariant forall j :: 0 <= j < i ==> !(entries[j].Stored? && entries[j].value.messageId == Some(id))
    {
      if entries[i].Stored? && entries[i].value.messageId == Some(id) {
        return true;
      }
      i := i + 1;
    }
    return false;
  }

  method FindToolCallId(entries: seq<Blob<ToolRecord>>, id: string) returns (found: bool)
    ensures found <==> HasToolCallId(entries, id)
  {
    var i := 0;
    while i < |entries|
      invariant i <= |entries|
      invariant forall j :: 0 <= j < i ==> !(entries[j].Stored? && entries[j].value.toolCallId == id)
    {
      if entries[i].Stored? && entries[i].value.toolCallId == id {
        return true;
      }
      i := i + 1;
    }
    return false;
  }

  /** The parse loop: `json.loads` of each entry, skipping the ones that fail. */
  method ParseAll<T>(entries: seq<Blob<T>>) returns (values: seq<T>)
    ensures values == Parsed(entries)
  {
    values := [];
    var i := 0;
    while i < |entries|
      invariant i <= |entries|
      invariant values == Parsed(entries[..i])
    {
      assert entries[..i + 1][..i] == entries[..i];
      if entries[i].Stored? {
        values := values + [entries[i].value];
      }
      i := i + 1;
    }
    assert entries[..i] == entries;
  }

  // ---------------------------------------------------------------- chat state records

  /** `state.get("version", 0) + 1`; a non-numeric version raises. Python adds a bool as 0 or 1. */
  function NextVersion(fields: seq<Field>): (r: Result<int>)
    ensures !HasKey(fields, "version") ==> r == Ok(1)
    ensures var v := Get(fields, "version"); v.Some? && v.value.JInt? ==> r == Ok(v.value.i + 1)
    ensures var v := Get(fields, "version"); v.Some? && v.value.JBool? ==> r == Ok(if v.value.b then 2 else 1)
    ensures var v := Get(fields, "version");
      r.Err? <==> v.Some? && !v.value.JInt? && !v.value.JBool?
    ensures r.Err? ==> r.error == InvalidStateVersion
  {
    match Get(fields, "version")
    case None => Ok(1)
    case Some(JInt(v)) => Ok(v + 1)
    case Some(JBool(b)) => Ok(if b then 2 else 1)
    case Some(_) => Err(InvalidStateVersion)
  }

  /** `{**state, "last_updated": now, "version": version}`. */
  function WithMeta(fields: seq<Field>, now: string, version: int): (r: seq<Field>)
    ensures Get(r, "version") == Some(JInt(version))
    ensures Get(r, "last_updated") == Some(JStr(now))
  {
    var r := Set(Set(fields, "last_updated", JStr(now)), "version", JInt(version));
    GetSet(Set(fields, "last_updated", JStr(now)), "version", JInt(version), "version");
    GetSet(Set(fields, "last_updated", JStr(now)), "version", JInt(version), "last_updated");
    GetSet(fields, "last_updated", JStr(now), "last_updated");
    r
  }

  /** Stamping the metadata leaves every other key of the state as it was. */
  lemma WithMetaKeeps(fields: seq<Field>, now: string, version: int, k: string)
    requires k != "version" && k != "last_updated"
    ensures Get(WithMeta(fields, now, version), k) == Get(fields, k)
  {
    GetSet(Set(fields, "last_updated", JStr(now)), "version", JInt(version), k);
    GetSet(fields, "last_updated", JStr(now), k);
  }

  // ---------------------------------------------------------------- the storage operations

  /** One entry of `atomic_turn_operation`'s `operations`. */
  datatype TurnOp =
    | AddMessageOp(message: Message)
    | AddToolCallOp(toolCall: ToolRecord)
    | UpdateStateOp(fields: seq<Field>)
    | UnknownOp                       // any other "type": ignored

  function StampMessage(m: Message, now: Instant): Message {
    if m.timestamp.None? then m.(timestamp := Some(now.iso)) else m
  }

  function StampTool(t: ToolRecord, now: Instant): ToolRecord {
    if t.timestamp.None? then t.(timestamp := Some(now.iso)) else t
  }

  /** What one turn operation appends to the chat history. */
  function OpMessage(op: TurnOp, now: Instant): seq<Blob<Message>> {
    if op.AddMessageOp? then [Stored(StampMessage(op.message, now))] else []
  }

  function OpTool(op: TurnOp, now: Instant): seq<Blob<ToolRecord>> {
    if op.AddToolCallOp? then [Stored(StampTool(op.toolCall, now))] else []
  }

  /** The messages a list of turn operations appends, in order. */
  function OpMessages(ops: seq<TurnOp>, now: Instant): seq<Blob<Message>> {
    if ops == [] then [] else OpMessages(ops[..|ops| - 1], now) + OpMessage(ops[|ops| - 1], now)
  }

  function OpTools(ops: seq<TurnOp>, now: Instant): seq<Blob<ToolRecord>> {
    if ops == [] then [] else OpTools(ops[..|ops| - 1], now) + OpTool(ops[|ops| - 1], now)
  }

  /** The state an `update_state` operation writes: its fields with `last_updated`, no version. */
  function OpStateOf(op: TurnOp, now: Instant): Option<Json> {
    if op.UpdateStateOp? then Some(JObject(Set(op.fields, "last_updated", JStr(now.iso)))) else None
  }

  /** The state written by the last `update_state` operation, if any. */
  function OpState(ops: seq<TurnOp>, now: Instant): Option<Json> {
    if ops == [] then None
    else if OpStateOf(ops[|ops| - 1], now).Some? then OpStateOf(ops[|ops| - 1], now)
    else OpState(ops[..|ops| - 1], now)
  }

  /** The lists after `extra` is pushed onto the list of `chat`; pushing nothing creates no list. */
  function Appended<T>(lists: map<string, seq<T>>, chat: string, extra: seq<T>): map<string, seq<T>> {
    if extra == [] then lists else lists[chat := (if chat in lists then lists[chat] else []) + extra]
  }

  lemma AppendedTwice<T>(lists: map<string, seq<T>>, chat: string, a: seq<T>, b: seq<T>)
    ensures Appended(Appended(lists, chat, a), chat, b) == Appended(lists, chat, a + b)
  {
    if a == [] {
      assert a + b == b;
    } else if b == [] {
      assert a + b == a;
    } else {
      var old_ := if chat in lists then lists[chat] else [];
      assert old_ + a + b == old_ + (a + b);
    }
  }

  /** The state after the updates of `ops`. */
  function StateAfter(state: map<string, Blob<Json>>, chat: string, written: Option<Json>): map<string, Blob<Json>> {
    if written.Some? then state[chat := Stored(written.value)] else state
  }

  /** The message `add_chat_message` stores: a missing id becomes `{chat}:msg:{n}` for the next counter value n. */
  function Filled(chat: string, m: Message, counter: int, now: Instant): (r: Message)
    ensures r.messageId.Some? && r.timestamp.Some?
    ensures m.messageId.Some? ==> r.messageId == m.messageId
    ensures m.timestamp.Some? ==> r.timestamp == m.timestamp
    ensures r.role == m.role && r.content == m.content && r.toolCalls == m.toolCalls && r.toolCallId == m.toolCallId
    ensures m.messageId.Some? && m.timestamp.Some? ==> r == m
  {
    var id := if m.messageId.Some? then m.messageId.value else chat + ":msg:" + IntToString(counter + 1);
    StampMessage(m.(messageId := Some(id)), now)
  }

  /** The entries `LRANGE key -n -1` returns that parse. */
  function Recent<T>(entries: seq<Blob<T>>, n: int): seq<T> {
    Parsed(LRange(entries, -n, -1))
  }

  /** Reads the last `n` entries, drops the corrupt ones and sorts by timestamp. */
  method ReadRecent<T>(entries: seq<Blob<T>>, n: int, key: T -> string) returns (r: seq<T>)
    ensures r == SortBy(Recent(entries, n), key, StrLe)
    ensures Sorted(r, key, StrLe)
    ensures multiset(r) == multiset(Recent(entries, n))
  {
    var parsed := ParseAll(LRange(entries, -n, -1));
    StrLeIsTotalOrder();
    r := Sort(parsed, key, StrLe);
  }

  /** `limit or default`. */
  function LimitOr(limit: Option<int>, default: int): int {
    if limit.None? || limit.value == 0 then default else limit.value
  }

  class RedisStorage {
    const client: RedisClient

    constructor(client: RedisClient)
      ensures this.client == client
    {
      this.client := client;
    }

    /** `get_chat_state`: a missing or unparsable state reads as `None`. */
    method GetChatState(chat: string) returns (r: Option<Json>)
      ensures r.Some? <==> chat in client.state && client.state[chat].Stored?
      ensures r.Some? ==> r.value == client.state[chat].value
    {
      if chat in client.state && client.state[chat].Stored? {
        return Some(client.state[chat].value);
      }
      return None;
    }

    /** `set_chat_state`: stores the state with `last_updated` and `version` incremented. */
    method SetChatState(chat: string, fields: seq<Field>, now: Instant) returns (r: Outcome)
      modifies client
      ensures NextVersion(fields).Err? ==> r == Fail(InvalidStateVersion) && client.Snapshot() == old(client.Snapshot())
      ensures NextVersion(fields).Ok? ==> r == Pass
      ensures NextVersion(fields).Ok? ==> client.state == old(client.state)[chat := Stored(JObject(WithMeta(fields, now.iso, NextVersion(fields).value)))]
      ensures client.history == old(client.history) && client.toolHistory == old(client.toolHistory)
      ensures client.msgCounter == old(client.msgCounter) && client.locks == old(client.locks)
    {
      var version := NextVersion(fields);
      if version.Err? {
        return Fail(InvalidStateVersion);
      }
      client.SetState(chat, JObject(WithMeta(fields, now.iso, version.value)));
      return Pass;
    }

    /** `get_chat_history`: the last `limit or 5` entries that parse, sorted by timestamp. */
    method GetChatHistory(chat: string, limit: Option<int>) returns (r: seq<Message>)
      ensures r == SortBy(Recent(client.HistoryOf(chat), LimitOr(limit, ChatHistoryLimit)), TimestampKey, StrLe)
      ensures Sorted(r, TimestampKey, StrLe)
      ensures multiset(r) == multiset(Recent(client.HistoryOf(chat), LimitOr(limit, ChatHistoryLimit)))
    {
      r := ReadRecent(client.HistoryOf(chat), LimitOr(limit, ChatHistoryLimit), TimestampKey);
    }

    /** `get_tool_history`: the last `limit or 100` entries that parse, sorted by timestamp. */
    method GetToolHistory(chat: string, limit: Option<int>) returns (r: seq<ToolRecord>)
      ensures r == SortBy(Recent(client.ToolHistoryOf(chat), LimitOr(limit, ToolHistoryLimit)), ToolTimestampKey, StrLe)
      ensures Sorted(r, ToolTimestampKey, StrLe)
      ensures multiset(r) == multiset(Recent(client.ToolHistoryOf(chat), LimitOr(limit, ToolHistoryLimit)))
    {
      r := ReadRecent(client.ToolHistoryOf(chat), LimitOr(limit, ToolHistoryLimit), ToolTimestampKey);
    }

    /**
      `add_chat_message` under the lock `lock:chat_write:{chat}`: fills in a
      missing `message_id` from the chat's counter and a missing timestamp,
      then appends unless a parsable entry already has that id.
     */
    method AddChatMessage(chat: string, message: Message, lockPolls: nat, lockId: string, now: Instant)
      returns (r: Outcome)
      requires client.Valid()
      modifies client
      ensures client.Valid()
      ensures r.Fail? <==> lockPolls == 0 || ChatWriteLock(chat) in old(client.locks)
      ensures r.Fail? ==> r.error == LockTimeout(ChatWriteLock(chat)) && client.Snapshot() == old(client.Snapshot())
      ensures r.Pass? ==> client.history == old(client.history)[chat := AppendMessageIfNew(old(client.HistoryOf(chat)), Filled(chat, message, old(client.CounterOf(chat)), now))]
      ensures r.Pass? ==> client.msgCounter == if message.messageId.None? then old(client.msgCounter)[chat := old(client.CounterOf(chat)) + 1] else old(client.msgCounter)
      ensures r.Pass? ==> client.state == old(client.state) && client.toolHistory == old(client.toolHistory)
      ensures r.Pass? ==> client.locks == old(client.locks)
    {
      var lock := new DistributedLock(client, "chat_write:" + chat, lockId);
      r := lock.Acquire(lockPolls);
      if r.Fail? {
        return;
      }
      var filled := Filled(chat, message, client.CounterOf(chat), now);
      if message.messageId.None? {
        var _ := client.Incr(chat);
      }
      client.AppendMessage(chat, filled);
      var _ := lock.Release(false);
    }

    /**
      `add_tool_call` under the lock `lock:tool_write:{chat}`: fills in a
      missing timestamp and appends unless the record has a non-empty
      `tool_call_id` that a parsable entry already carries.
     */
    method AddToolCall(chat: string, record: ToolRecord, lockPolls: nat, lockId: string, now: Instant)
      returns (r: Outcome)
      requires client.Valid()
      modifies client
      ensures client.Valid()
      ensures r.Fail? <==> lockPolls == 0 || ToolWriteLock(chat) in old(client.locks)
      ensures r.Fail? ==> r.error == LockTimeout(ToolWriteLock(chat)) && client.Snapshot() == old(client.Snapshot())
      ensures r.Pass? ==>
        && client.toolHistory == old(client.toolHistory)[chat := AppendToolIfNew(old(client.ToolHistoryOf(chat)), StampTool(record, now))]
        && client.state == old(client.state) && client.history == old(client.history)
        && client.msgCounter == old(client.msgCounter) && client.locks == old(client.locks)
    {
      var lock := new DistributedLock(client, "tool_write:" + chat, lockId);
      r := lock.Acquire(lockPolls);
      if r.Fail? {
        return;
      }
      client.AppendTool(chat, StampTool(record, now));
      var _ := lock.Release(false);
    }

    /**
      `trim_history` under the lock `lock:trim:{chat}`: with limit 0 both
      lists are deleted, otherwise each keeps the range `-limit .. -1`.
     */
    method TrimHistory(chat: string, limit: int, lockPolls: nat, lockId: string) returns (r: Outcome)
      requires client.Valid()
      modifies client
      ensures client.Valid()
      ensures r.Fail? <==> lockPolls == 0 || TrimLock(chat) in old(client.locks)
      ensures r.Fail? ==> r.error == LockTimeout(TrimLock(chat)) && client.Snapshot() == old(client.Snapshot())
      ensures r.Pass? && limit == 0 ==>
        client.history == old(client.history) - {chat} && client.toolHistory == old(client.toolHistory) - {chat}
      ensures r.Pass? && limit != 0 ==>
        client.history == Trimmed(old(client.history), chat, -limit, -1)
        && client.toolHistory == Trimmed(old(client.toolHistory), chat, -limit, -1)
      ensures r.Pass? ==> client.state == old(client.state) && client.msgCounter == old(client.msgCounter)
      ensures r.Pass? ==> client.locks == old(client.locks)
    {
      var lock := new DistributedLock(client, "trim:" + chat, lockId);
      r := lock.Acquire(lockPolls);
      if r.Fail? {
        return;
      }
      if limit == 0 {
        client.history := client.history - {chat};
        client.toolHistory := client.toolHistory - {chat};
      } else {
        client.LTrimHistory(chat, -limit, -1);
        client.LTrimTool(chat, -limit, -1);
      }
      var _ := lock.Release(false);
    }

    /**
      `atomic_turn_operation` under the lock `lock:turn:{chat}`: appends the
      messages and tool records in order (without the duplicate check),
      writes the last state update, and returns whether every pipelined
      command succeeded, which comes down to both lists existing at the end
      (`EXPIRE` of a missing key returns 0).
     */
    method AtomicTurnOperation(chat: string, ops: seq<TurnOp>, lockPolls: nat, lockId: string, now: Instant)
      returns (r: Result<bool>)
      requires client.Valid()
      modifies client
      ensures client.Valid()
      ensures r.Err? <==> lockPolls == 0 || TurnLock(chat) in old(client.locks)
      ensures r.Err? ==> r.error == LockTimeout(TurnLock(chat)) && client.Snapshot() == old(client.Snapshot())
      ensures r.Ok? ==> client.history == Appended(old(client.history), chat, OpMessages(ops, now))
      ensures r.Ok? ==> client.toolHistory == Appended(old(client.toolHistory), chat, OpTools(ops, now))
      ensures r.Ok? ==> client.state == StateAfter(old(client.state), chat, OpState(ops, now))
      ensures r.Ok? ==> client.msgCounter == old(client.msgCounter) && client.locks == old(client.locks)
      ensures r.Ok? ==> (r.value <==> chat in client.history && chat in client.toolHistory)
    {
      var lock := new DistributedLock(client, "turn:" + chat, lockId);
      var acquired := lock.Acquire(lockPolls);
      if acquired.Fail? {
        return Err(acquired.error);
      }
      client.ApplyTurnOps(chat, ops, now);
      var historyExists := chat in client.history;
      var toolsExist := chat in client.toolHistory;
      var _ := lock.Release(false);
      return Ok(historyExists && toolsExist);
    }
  }
}
