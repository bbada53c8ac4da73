/**
  The conversation loop of `BaseAgent` (core/agents/common/base_agent.py):
  how the messages for the LLM are prepared, how a streamed reply's tool-call
  fragments are put together, how one tool call is executed and retried, and
  the bounded loop of `complete`. The LLM and the tools are oracles: an LLM
  reply is a function of the iteration and the messages sent, a tool attempt
  outcome is a function of the iteration, the call's position and the attempt.
  The agent's calls into the state service are recorded as the requests it
  issues (`TurnCall`, `AuditWrite`); what they do is the ChatState model.
 */
module Agent {
  import opened Wrappers
  import opened PyStr
  import opened Json
  import opened Messages

  /** `settings.max_tool_iterations`. */
  const MaxToolIterations := 4

  const ExhaustedReply := "I've reached the maximum number of iterations. Please try rephrasing your request."

  // ---------------------------------------------------------------- preparing the messages

  predicate NotSystem(m: Message) { m.role != System }

  /** A system prompt that Python treats as true: present and non-empty. */
  predicate HasPrompt(systemPrompt: Option<string>) { systemPrompt.Some? && systemPrompt.value != "" }

  function PromptCount(systemPrompt: Option<string>): nat { if HasPrompt(systemPrompt) then 1 else 0 }

  /** `_prepare_messages_with_system_prompt`: drop every system message, then put the prompt first. */
  function PrepareMessages(messages: seq<Message>, systemPrompt: Option<string>): (r: seq<Message>)
    ensures |r| == PromptCount(systemPrompt) + |Filter(messages, NotSystem)|
    ensures HasPrompt(systemPrompt) ==> r[0] == Plain(System, systemPrompt.value)
    ensures forall i :: PromptCount(systemPrompt) <= i < |r| ==> r[i].role != System
    ensures (|r| > 0 && r[0].role == System) <==> HasPrompt(systemPrompt)
  {
    var conversation := Filter(messages, NotSystem);
    if HasPrompt(systemPrompt) then [Plain(System, systemPrompt.value)] + conversation else conversation
  }

  lemma {:induction false} FilterTwice<T>(s: seq<T>, p: T -> bool)
    ensures Filter(Filter(s, p), p) == Filter(s, p)
    decreases |s|
  {
    if s != [] {
      FilterTwice(s[1..], p);
      var f := Filter(s, p);
      if p(s[0]) {
        assert f == [s[0]] + Filter(s[1..], p);
        assert f[0] == s[0] && f[1..] == Filter(s[1..], p);
        assert Filter(f, p) == [f[0]] + Filter(f[1..], p);
      } else {
        assert f == Filter(s[1..], p);
      }
    }
  }

  /** The conversation survives preparation exactly: same non-system messages, same order, nothing added but the prompt. */
  lemma PrepareKeepsConversation(messages: seq<Message>, systemPrompt: Option<string>)
    ensures Filter(PrepareMessages(messages, systemPrompt), NotSystem) == Filter(messages, NotSystem)
    ensures IsSubseq(PrepareMessages(messages, systemPrompt)[PromptCount(systemPrompt)..], messages)
  {
    var conversation := Filter(messages, NotSystem);
    var r := PrepareMessages(messages, systemPrompt);
    FilterTwice(messages, NotSystem);
    if HasPrompt(systemPrompt) {
      assert Filter(r, NotSystem) == Filter(r[1..], NotSystem);
      assert r[1..] == conversation;
    } else {
      assert r[0..] == conversation;
    }
    FilterIsSubseq(messages, NotSystem);
  }

  /** Preparing prepared messages again with the same prompt changes nothing. */
  lemma PrepareIdempotent(messages: seq<Message>, systemPrompt: Option<string>)
    ensures PrepareMessages(PrepareMessages(messages, systemPrompt), systemPrompt) == PrepareMessages(messages, systemPrompt)
  {
    PrepareKeepsConversation(messages, systemPrompt);
  }

  // ---------------------------------------------------------------- projecting the history

  /** The stored message cut down to `role`, `content`, `tool_calls`, `tool_call_id` and `name`. */
  function Projected(m: Message): (r: Message)
    ensures r.messageId.None? && r.turnId.None? && r.error.None? && r.timestamp.None?
  {
    Message(m.role, m.content, m.toolCalls, m.toolCallId, m.name, None, None, None, None)
  }

  /** The messages handed to preparation: the projected history (with a state service) and then the user's message. */
  function ConversationFor(history: seq<Message>, message: string, hasService: bool): (r: seq<Message>)
  {
    (if hasService then seq(|history|, i requires 0 <= i < |history| => Projected(history[i])) else [])
    + [Plain(User, message)]
  }

  /**
    The projection loses no LLM-facing key and is idempotent, and after
    preparation the current user message is the last one sent.
   */
  lemma ConversationEndsWithUser(history: seq<Message>, message: string, hasService: bool, systemPrompt: Option<string>)
    ensures var c := ConversationFor(history, message, hasService);
      && |c| == (if hasService then |history| else 0) + 1
      && (hasService ==> forall i :: 0 <= i < |history| ==>
            && c[i].role == history[i].role && c[i].content == history[i].content
            && c[i].toolCalls == history[i].toolCalls && c[i].toolCallId == history[i].toolCallId
            && c[i].name == history[i].name && Projected(c[i]) == c[i])
    ensures var p := PrepareMessages(ConversationFor(history, message, hasService), systemPrompt);
      |p| > 0 && p[|p| - 1] == Plain(User, message)
  {
    var c := ConversationFor(history, message, hasService);
    var front := c[..|c| - 1];
    assert c == front + [Plain(User, message)];
    FilterAppend(front, [Plain(User, message)], NotSystem);
  }

  // ---------------------------------------------------------------- streamed tool-call fragments

  /** One `tool_calls` delta of a streamed chunk; an absent id, name or argument fragment is "". */
  datatype ToolDelta = ToolDelta(index: nat, id: string, name: string, arguments: string)

  /** One streamed chunk: its tool-call deltas and its content delta ("" when absent). */
  datatype Chunk = Chunk(toolDeltas: seq<ToolDelta>, content: string)

  /** `{"id": None, "type": "function", "function": {"name": "", "arguments": ""}}`. */
  const EmptySlot := ToolCall("", "", "")

  /** The slot list padded with empty slots until it covers `index`. */
  function Grown(slots: seq<ToolCall>, index: nat): (r: seq<ToolCall>)
    ensures |r| == Max(|slots|, index + 1)
    ensures r[..|slots|] == slots
    ensures forall i :: |slots| <= i < |r| ==> r[i] == EmptySlot
  {
    if |slots| > index then slots else slots + seq(index + 1 - |slots|, _ => EmptySlot)
  }

  /** One delta folded into the slots: a non-empty id or name replaces, an argument fragment is appended. */
  function Absorbed(slots: seq<ToolCall>, d: ToolDelta): seq<ToolCall> {
    var g := Grown(slots, d.index);
    var s := g[d.index];
    g[d.index := ToolCall(if d.id != "" then d.id else s.id, if d.name != "" then d.name else s.name, s.arguments + d.arguments)]
  }

  /** The slots after all deltas, in order. */
  function Assembled(ds: seq<ToolDelta>): seq<ToolCall> {
    if ds == [] then [] else Absorbed(Assembled(ds[..|ds| - 1]), ds[|ds| - 1])
  }

  lemma AssembledSnoc(ds: seq<ToolDelta>, d: ToolDelta)
    ensures Assembled(ds + [d]) == Absorbed(Assembled(ds), d)
  {
    assert (ds + [d])[..|ds|] == ds;
  }

  // The reference reading of the slots, index by index.

  /** One more than the largest index seen. */
  function SlotsNeeded(ds: seq<ToolDelta>): nat {
    if ds == [] then 0 else Max(SlotsNeeded(ds[..|ds| - 1]), ds[|ds| - 1].index + 1)
  }

  /** The argument fragments for index `i`, concatenated in arrival order. */
  function ArgumentsAt(ds: seq<ToolDelta>, i: nat): string {
    if ds == [] then ""
    else ArgumentsAt(ds[..|ds| - 1], i) + (if ds[|ds| - 1].index == i then ds[|ds| - 1].arguments else "")
  }

  /** The last non-empty id sent for index `i`, or "". */
  function LastIdAt(ds: seq<ToolDelta>, i: nat): string {
    if ds == [] then ""
    else if ds[|ds| - 1].index == i && ds[|ds| - 1].id != "" then ds[|ds| - 1].id
    else LastIdAt(ds[..|ds| - 1], i)
  }

  /** The last non-empty function name sent for index `i`, or "". */
  function LastNameAt(ds: seq<ToolDelta>, i: nat): string {
    if ds == [] then ""
    else if ds[|ds| - 1].index == i && ds[|ds| - 1].name != "" then ds[|ds| - 1].name
    else LastNameAt(ds[..|ds| - 1], i)
  }

  lemma {:induction false} NothingBeyondSlots(ds: seq<ToolDelta>, i: nat)
    requires i >= SlotsNeeded(ds)
    ensures ArgumentsAt(ds, i) == "" && LastIdAt(ds, i) == "" && LastNameAt(ds, i) == ""
    decreases |ds|
  {
    if ds != [] {
      NothingBeyondSlots(ds[..|ds| - 1], i);
    }
  }

  /** The folded slots are exactly the index-by-index reading of the deltas. */
  lemma {:induction false} AssembledSpec(ds: seq<ToolDelta>)
    ensures |Assembled(ds)| == SlotsNeeded(ds)
    ensures forall i :: 0 <= i < |Assembled(ds)| ==>
      Assembled(ds)[i] == ToolCall(LastIdAt(ds, i), LastNameAt(ds, i), ArgumentsAt(ds, i))
    decreases |ds|
  {
    if ds != [] {
      var init := ds[..|ds| - 1];
      var d := ds[|ds| - 1];
      var a := Assembled(init);
      AssembledSpec(init);
      var g := Grown(a, d.index);
      forall i | 0 <= i < |g|
        ensures g[i] == ToolCall(LastIdAt(init, i), LastNameAt(init, i), ArgumentsAt(init, i))
      {
        if i < |a| {
          assert g[i] == g[..|a|][i] == a[i];
        } else {
          NothingBeyondSlots(init, i);
        }
      }
    }
  }

  /** `while len(tool_calls) <= tc_delta.index: tool_calls.append(empty slot)`. */
  method GrowSlots(slots: seq<ToolCall>, index: nat) returns (r: seq<ToolCall>)
    ensures r == Grown(slots, index)
  {
    r := slots;
    while |r| <= index
      invariant |slots| <= |r| <= Max(|slots|, index + 1)
      invariant r == slots + seq(|r| - |slots|, _ => EmptySlot)
    {
      r := r + [EmptySlot];
    }
  }

  /** One delta handled as the loop body does: grow, then overwrite id and name, then append the arguments. */
  method AbsorbDelta(slots: seq<ToolCall>, d: ToolDelta) returns (r: seq<ToolCall>)
    ensures r == Absorbed(slots, d)
  {
    r := GrowSlots(slots, d.index);
    if d.id != "" {
      r := r[d.index := r[d.index].(id := d.id)];
    }
    if d.name != "" {
      r := r[d.index := r[d.index].(name := d.name)];
    }
    if d.arguments != "" {
      r := r[d.index := r[d.index].(arguments := r[d.index].arguments + d.arguments)];
    } else {
      assert r[d.index].arguments + d.arguments == r[d.index].arguments;
    }
  }

  /** The deltas of one chunk, folded in order into slots that already hold `seen`. */
  method AbsorbAll(slots: seq<ToolCall>, ghost seen: seq<ToolDelta>, ds: seq<ToolDelta>) returns (r: seq<ToolCall>)
    requires slots == Assembled(seen)
    ensures r == Assembled(seen + ds)
  {
    r := slots;
    assert seen + ds[..0] == seen;
    for j := 0 to |ds|
      invariant r == Assembled(seen + ds[..j])
    {
      r := AbsorbDelta(r, ds[j]);
      assert seen + ds[..j + 1] == (seen + ds[..j]) + [ds[j]];
      AssembledSnoc(seen + ds[..j], ds[j]);
    }
    assert ds[..|ds|] == ds;
  }

  function Deltas(chunks: seq<Chunk>): seq<ToolDelta> {
    if chunks == [] then [] else Deltas(chunks[..|chunks| - 1]) + chunks[|chunks| - 1].toolDeltas
  }

  /** All content deltas, concatenated. */
  function Contents(chunks: seq<Chunk>): string {
    if chunks == [] then "" else Contents(chunks[..|chunks| - 1]) + chunks[|chunks| - 1].content
  }

  /** The `{"type": "content"}` events the handler yields: one per non-empty content delta. */
  function ContentEvents(chunks: seq<Chunk>): seq<string> {
    if chunks == [] then []
    else ContentEvents(chunks[..|chunks| - 1]) + (if chunks[|chunks| - 1].content != "" then [chunks[|chunks| - 1].content] else [])
  }

  function Concat(ss: seq<string>): string {
    if ss == [] then "" else Concat(ss[..|ss| - 1]) + ss[|ss| - 1]
  }

  lemma {:induction false} EventsJoinToBuffer(chunks: seq<Chunk>)
    ensures Concat(ContentEvents(chunks)) == Contents(chunks)
    decreases |chunks|
  {
    if chunks != [] {
      var init := chunks[..|chunks| - 1];
      var c := chunks[|chunks| - 1];
      EventsJoinToBuffer(init);
      if c.content != "" {
        var es := ContentEvents(init) + [c.content];
        assert es[..|es| - 1] == ContentEvents(init);
      } else {
        assert ContentEvents(chunks) == ContentEvents(init);
        assert Contents(chunks) == Contents(init) + "";
      }
    }
  }

  /**
    The collection loop of `_handle_streaming_response`: the slot list grows to
    cover every delta's index, slot i holds the last non-empty id and name and
    the concatenated argument fragments for index i, and the yielded content
    events concatenate to the buffer.
   */
  method AssembleStream(chunks: seq<Chunk>) returns (slots: seq<ToolCall>, buffer: string, events: seq<string>)
    ensures slots == Assembled(Deltas(chunks))
    ensures |slots| == SlotsNeeded(Deltas(chunks))
    ensures forall i :: 0 <= i < |slots| ==>
      slots[i] == ToolCall(LastIdAt(Deltas(chunks), i), LastNameAt(Deltas(chunks), i), ArgumentsAt(Deltas(chunks), i))
    ensures buffer == Contents(chunks) && events == ContentEvents(chunks)
    ensures Concat(events) == buffer
  {
    slots, buffer, events := [], "", [];
    for c := 0 to |chunks|
      invariant slots == Assembled(Deltas(chunks[..c]))
      invariant buffer == Contents(chunks[..c]) && events == ContentEvents(chunks[..c])
    {
      var chunk := chunks[c];
      assert chunks[..c + 1][..c] == chunks[..c];
      slots := AbsorbAll(slots, Deltas(chunks[..c]), chunk.toolDeltas);
      if chunk.content != "" {
        buffer := buffer + chunk.content;
        events := events + [chunk.content];
      } else {
        assert buffer + chunk.content == buffer;
      }
    }
    assert chunks[..|chunks|] == chunks;
    AssembledSpec(Deltas(chunks));
    EventsJoinToBuffer(chunks);
  }

  // ---------------------------------------------------------------- executing one tool call

  /** `json.loads(arguments)`: a value, or the text of the decoding error. */
  datatype ArgsParse = Parsed(args: Json) | Malformed(reason: string)

  /** What the registered tool function did with the arguments: returned a value or raised. */
  datatype ToolOutcome = Returned(value: Json) | Raised(reason: string)

  /** A state-service write that `_execute_tool_call` requests; its failure is logged and ignored. */
  datatype AuditWrite =
    | ToolCallEntry(chat: string, toolName: string, toolCallId: string, arguments: Json, result: Json)
    | ToolResultEntry(chat: string, turnId: string, toolCallId: string, toolName: string, result: Json, error: string)

  datatype ToolRun = ToolRun(message: Message, writes: seq<AuditWrite>)

  /**
    What a tool call runs against: the chat, the active turn (None when there is
    none), whether history is saved and a state service is present, the
    registered function names and the JSON decoder.
   */
  datatype ToolContext = ToolContext(chat: string, turn: Option<string>, audit: bool, available: set<string>,
                                     parse: string -> ArgsParse)

  /** `{"tool_call_id": id, "role": "tool", "name": name, "content": content}`. */
  function ToolMessage(call: ToolCall, content: string): Message {
    Message(Tool, content, [], call.id, Some(call.name), None, None, None, None)
  }

  function ErrorPrefix(name: string): string { "Error executing tool '" + name + "': " }

  function UnavailableReason(name: string): string { "Function " + name + " not available" }

  /** The tool function is reached: the arguments decode and the name is registered. */
  predicate Invocable(call: ToolCall, ctx: ToolContext) {
    ctx.parse(call.arguments).Parsed? && call.name in ctx.available
  }

  function Failure(call: ToolCall, ctx: ToolContext, reason: string): ToolRun {
    ToolRun(ToolMessage(call, ErrorPrefix(call.name) + reason),
            if ctx.audit && ctx.turn.Some? then [ToolResultEntry(ctx.chat, ctx.turn.value, call.id, call.name, JNull, reason)] else [])
  }

  /**
    `_execute_tool_call`: never fails. A bad argument string, an unregistered
    name or a raising tool gives the "Error executing tool" text; a result is
    rendered with `json.dumps` for a dict or list and `str` otherwise.
   */
  function ExecuteToolCall(call: ToolCall, ctx: ToolContext, outcome: ToolOutcome): (r: ToolRun)
    ensures r.message.role == Tool && r.message.toolCallId == call.id && r.message.name == Some(call.name)
    ensures Invocable(call, ctx) && outcome.Returned? ==> r.message.content == Render(outcome.value)
    ensures !(Invocable(call, ctx) && outcome.Returned?) ==> ErrorPrefix(call.name) <= r.message.content
    ensures !ctx.audit ==> r.writes == []
    ensures forall w :: w in r.writes ==> w.chat == ctx.chat && w.toolCallId == call.id && w.toolName == call.name
    ensures |r.writes| <= 2
  {
    match ctx.parse(call.arguments)
    case Malformed(reason) => Failure(call, ctx, reason)
    case Parsed(args) =>
      if call.name !in ctx.available then Failure(call, ctx, UnavailableReason(call.name))
      else
        match outcome
        case Raised(reason) => Failure(call, ctx, reason)
        case Returned(v) =>
          ToolRun(ToolMessage(call, Render(v)),
                  (if ctx.audit then [ToolCallEntry(ctx.chat, call.name, call.id, args, v)] else [])
                  + (if ctx.audit && ctx.turn.Some? then [ToolResultEntry(ctx.chat, ctx.turn.value, call.id, call.name, v, "")] else []))
  }

  /** The message handed back does not depend on whether, or where, the call is audited. */
  lemma ToolMessageIgnoresAuditing(call: ToolCall, ctx: ToolContext, outcome: ToolOutcome, audit: bool, turn: Option<string>)
    ensures ExecuteToolCall(call, ctx, outcome).message == ExecuteToolCall(call, ctx.(audit := audit, turn := turn), outcome).message
  {
  }

  // ---------------------------------------------------------------- retrying a tool call

  /** One attempt under `asyncio.wait_for`: it ran to the end, timed out, or raised out of `_execute_tool_call`. */
  datatype Attempt = Ran(outcome: ToolOutcome) | TimedOut | Crashed(reason: string)

  function TimedOutContent(timeoutText: string): string { "Tool call timed out after " + timeoutText + "s" }

  function FailedContent(attempts: int, reason: string): string {
    "Tool call failed after " + IntToString(attempts) + " attempts: " + reason
  }

  /** The first of the first `n` attempts of call `slot` in `iteration` that ran to the end. */
  function FirstRun(runs: (nat, nat, nat) -> Attempt, iteration: nat, slot: nat, n: nat): (r: Option<nat>)
    ensures r.Some? ==> r.value < n && runs(iteration, slot, r.value).Ran?
    ensures r.Some? ==> forall a :: 0 <= a < r.value ==> !runs(iteration, slot, a).Ran?
    ensures r.None? ==> forall a :: 0 <= a < n ==> !runs(iteration, slot, a).Ran?
  {
    if n == 0 then None
    else
      var p := FirstRun(runs, iteration, slot, n - 1);
      if p.Some? then p else if runs(iteration, slot, n - 1).Ran? then Some(n - 1) else None
  }

  /**
    `execute_single_tool_call`: the first attempt that runs gives the result;
    when every attempt times out or raises, the last one's kind picks the error
    text. With no attempts at all the coroutine returns None.
   */
  function RetryResult(call: ToolCall, ctx: ToolContext, attempts: int, timeoutText: string,
                       runs: (nat, nat, nat) -> Attempt, iteration: nat, slot: nat): Option<Message>
  {
    if attempts <= 0 then None
    else match FirstRun(runs, iteration, slot, attempts)
      case Some(k) => Some(ExecuteToolCall(call, ctx, runs(iteration, slot, k).outcome).message)
      case None =>
        var last := runs(iteration, slot, attempts - 1);
        Some(ToolMessage(call, if last.TimedOut? then TimedOutContent(timeoutText) else FailedContent(attempts, last.reason)))
  }

  /** A retried call answers exactly when at least one attempt is allowed, and answers that call. */
  lemma RetryResultAnswers(call: ToolCall, ctx: ToolContext, attempts: int, timeoutText: string,
                           runs: (nat, nat, nat) -> Attempt, iteration: nat, slot: nat)
    ensures var r := RetryResult(call, ctx, attempts, timeoutText, runs, iteration, slot);
      (r.Some? <==> attempts >= 1) && (r.Some? ==> r.value.role == Tool && r.value.toolCallId == call.id)
  {
  }

  method RetryToolCall(call: ToolCall, ctx: ToolContext, attempts: int, timeoutText: string,
                       runs: (nat, nat, nat) -> Attempt, iteration: nat, slot: nat) returns (r: Option<Message>, made: nat)
    ensures r == RetryResult(call, ctx, attempts, timeoutText, runs, iteration, slot)
    ensures made == match FirstRun(runs, iteration, slot, Max(attempts, 0)) case Some(k) => k + 1 case None => Max(attempts, 0)
    ensures made <= Max(attempts, 0)
    ensures r.Some? <==> attempts >= 1
    ensures r.Some? ==> r.value.role == Tool && r.value.toolCallId == call.id && r.value.name == Some(call.name)
  {
    made := 0;
    if attempts <= 0 {
      // `range(0)` runs no attempt and the coroutine falls off its end
      return None, 0;
    }
    var a := 0;
    while a < attempts - 1
      invariant 0 <= a <= attempts - 1
      invariant made == a
      invariant FirstRun(runs, iteration, slot, a) == None
    {
      made := made + 1;
      if runs(iteration, slot, a).Ran? {
        r := Some(ExecuteToolCall(call, ctx, runs(iteration, slot, a).outcome).message);
        return;
      }
      a := a + 1;
    }
    // the last attempt: its failure is not retried
    made := attempts;
    match runs(iteration, slot, a) {
      case Ran(outcome) => r := Some(ExecuteToolCall(call, ctx, outcome).message);
      case TimedOut => r := Some(ToolMessage(call, TimedOutContent(timeoutText)));
      case Crashed(reason) => r := Some(ToolMessage(call, FailedContent(attempts, reason)));
    }
  }

  /** `_execute_tool_calls_with_retry`: one result per requested call, in request order. */
  method ExecuteToolCalls(calls: seq<ToolCall>, ctx: ToolContext, attempts: int, timeoutText: string,
                          runs: (nat, nat, nat) -> Attempt, iteration: nat) returns (results: seq<Option<Message>>)
    ensures |results| == |calls|
    ensures forall i :: 0 <= i < |calls| ==> results[i] == RetryResult(calls[i], ctx, attempts, timeoutText, runs, iteration, i)
    ensures forall i :: 0 <= i < |calls| ==> (results[i].Some? <==> attempts >= 1)
    ensures forall i :: 0 <= i < |calls| && results[i].Some? ==> results[i].value.toolCallId == calls[i].id
  {
    results := [];
    for i := 0 to |calls|
      invariant |results| == i
      invariant forall j :: 0 <= j < i ==> results[j] == RetryResult(calls[j], ctx, attempts, timeoutText, runs, iteration, j)
    {
      var r, _ := RetryToolCall(calls[i], ctx, attempts, timeoutText, runs, iteration, i);
      results := results + [r];
    }
    forall i | 0 <= i < |calls|
      ensures results[i].Some? <==> attempts >= 1
      ensures results[i].Some? ==> results[i].value.toolCallId == calls[i].id
    {
      RetryResultAnswers(calls[i], ctx, attempts, timeoutText, runs, iteration, i);
    }
  }

  function Unwrapped(rs: seq<Option<Message>>): (ms: seq<Message>)
    requires forall i :: 0 <= i < |rs| ==> rs[i].Some?
    ensures |ms| == |rs| && forall i :: 0 <= i < |rs| ==> ms[i] == rs[i].value
  {
    seq(|rs|, i requires 0 <= i < |rs| && rs[i].Some? => rs[i].value)
  }

  // ---------------------------------------------------------------- the conversation loop

  /** What the LLM answered: tool calls (with any text), a final text, or an exception from the call. */
  datatype Reply = ToolRequest(content: string, calls: seq<ToolCall>) | FinalAnswer(content: string) | CompletionError

  /** A turn-lifecycle request `complete` sends to the state service. */
  datatype TurnCall = SaveAssistant(turnId: string, content: string, toolCalls: seq<ToolCall>) | ForceComplete(turnId: string)

  /**
    The agent's fixed setup: whether a state service is attached, the
    registered tool names, the JSON decoder, `tool_call_retry_attempts` and
    the text of `max_tool_call_timeout`.
   */
  datatype AgentConfig = AgentConfig(hasService: bool, available: set<string>, parse: string -> ArgsParse,
                                     retryAttempts: int, timeoutText: string)

  /** `max_iterations or settings.max_tool_iterations`: a missing or zero bound becomes the default. */
  function ResolveMaxIterations(requested: Option<int>): int {
    if requested.None? || requested.value == 0 then MaxToolIterations else requested.value
  }

  /** The turn id `complete` works under: only when saving with a service, and only if `start_turn` succeeded. */
  function TurnOf(cfg: AgentConfig, saveToHistory: bool, started: Option<string>): Option<string> {
    if saveToHistory && cfg.hasService then started else None
  }

  /**
    The reply ends the loop with `content`: a final answer, or a tool request
    whose `tool_calls` list is empty and therefore falsy.
   */
  predicate EndsWith(reply: Reply, content: string) {
    reply == FinalAnswer(content) || reply == ToolRequest(content, [])
  }

  function AssistantWithCalls(content: string, calls: seq<ToolCall>): Message {
    Message(Assistant, content, calls, "", None, None, None, None, None)
  }

  /**
    One tool round of `complete`: the assistant message announcing the calls,
    then one retried result per call, in request order.
   */
  method ToolRound(transcript: seq<Message>, content: string, toolCalls: seq<ToolCall>, ctx: ToolContext,
                   attempts: int, timeoutText: string, runs: (nat, nat, nat) -> Attempt, iteration: nat)
    returns (t: seq<Message>)
    requires attempts >= 1
    ensures |t| == |transcript| + 1 + |toolCalls| && transcript <= t
    ensures t[|transcript|] == AssistantWithCalls(content, toolCalls)
    ensures forall i :: 0 <= i < |toolCalls| ==>
      Some(t[|transcript| + 1 + i]) == RetryResult(toolCalls[i], ctx, attempts, timeoutText, runs, iteration, i)
  {
    var results := ExecuteToolCalls(toolCalls, ctx, attempts, timeoutText, runs, iteration);
    var answers := Unwrapped(results);
    t := transcript + [AssistantWithCalls(content, toolCalls)] + answers;
    forall i | 0 <= i < |toolCalls|
      ensures Some(t[|transcript| + 1 + i]) == RetryResult(toolCalls[i], ctx, attempts, timeoutText, runs, iteration, i)
    {
      assert t[|transcript| + 1 + i] == answers[i];
    }
  }

  /**
    `complete` without streaming. `started` is what `start_turn` returned (None
    when it raised), `history` what `get_chat_history` returned (None when it
    raised). At most the resolved `max_iterations` completion calls are made;
    running out of them, and any LLM error, force-complete the turn.
   */
  method Complete(cfg: AgentConfig, chat: string, message: string, systemPrompt: Option<string>,
                  maxIterations: Option<int>, saveToHistory: bool, started: Option<string>,
                  history: Option<seq<Message>>, llm: (nat, seq<Message>) -> Reply, runs: (nat, nat, nat) -> Attempt)
    returns (r: Result<Message>, exhausted: bool, calls: nat, transcript: seq<Message>, turnCalls: seq<TurnCall>)
    requires cfg.retryAttempts >= 1
    ensures calls <= Max(ResolveMaxIterations(maxIterations), 0)
    ensures exhausted ==> calls == Max(ResolveMaxIterations(maxIterations), 0) && r == Ok(Plain(Assistant, ExhaustedReply))
    ensures TurnOf(cfg, saveToHistory, started).None? ==> turnCalls == []
    ensures exhausted && TurnOf(cfg, saveToHistory, started).Some? ==>
      |turnCalls| > 0 && turnCalls[|turnCalls| - 1] == ForceComplete(TurnOf(cfg, saveToHistory, started).value)
    ensures r.Err? && TurnOf(cfg, saveToHistory, started).Some? ==>
      |turnCalls| > 0 && turnCalls[|turnCalls| - 1] == ForceComplete(TurnOf(cfg, saveToHistory, started).value)
    ensures r.Err? ==> !exhausted && (r.error == AgentFailure || r.error == StorageFailure)
    ensures r.Err? && r.error == StorageFailure ==> cfg.hasService && history.None? && calls == 0
    ensures r.Err? && r.error == AgentFailure ==> calls >= 1 && llm(calls - 1, transcript) == CompletionError
    ensures r.Ok? && !exhausted ==>
      calls >= 1 && EndsWith(llm(calls - 1, transcript), r.value.content) && r.value == Plain(Assistant, r.value.content)
    ensures r.Ok? && !exhausted && TurnOf(cfg, saveToHistory, started).Some? ==>
      |turnCalls| > 0 && turnCalls[|turnCalls| - 1] == SaveAssistant(TurnOf(cfg, saveToHistory, started).value, r.value.content, [])
    ensures !cfg.hasService || history.Some? ==>
      PrepareMessages(ConversationFor(history.GetOr([]), message, cfg.hasService), systemPrompt) <= transcript
  {
    var turn := TurnOf(cfg, saveToHistory, started);
    var maxIter := ResolveMaxIterations(maxIterations);
    exhausted, calls, transcript, turnCalls := false, 0, [], [];
    if cfg.hasService && history.None? {
      if turn.Some? {
        turnCalls := [ForceComplete(turn.value)];
      }
      r := Err(StorageFailure);
      return;
    }
    var ctx := ToolContext(chat, turn, saveToHistory && cfg.hasService, cfg.available, cfg.parse);
    var prepared := PrepareMessages(ConversationFor(history.GetOr([]), message, cfg.hasService), systemPrompt);
    transcript := prepared;
    var iteration := 0;
    while iteration < maxIter
      invariant 0 <= iteration <= Max(maxIter, 0)
      invariant calls == iteration
      invariant prepared <= transcript
      invariant turn.None? ==> turnCalls == []
    {
      var reply := llm(iteration, transcript);
      calls := calls + 1;
      match reply {
        case CompletionError =>
          if turn.Some? {
            // once in the iteration's handler, once more in the outer best-effort handler
            turnCalls := turnCalls + [ForceComplete(turn.value), ForceComplete(turn.value)];
          }
          r := Err(AgentFailure);
          return;
        case FinalAnswer(content) =>
          if turn.Some? {
            turnCalls := turnCalls + [SaveAssistant(turn.value, content, [])];
          }
          r := Ok(Plain(Assistant, content));
          return;
        case ToolRequest(content, toolCalls) =>
          if toolCalls == [] {
            // an empty `tool_calls` list is falsy: the final-answer branch
            if turn.Some? {
              turnCalls := turnCalls + [SaveAssistant(turn.value, content, [])];
            }
            r := Ok(Plain(Assistant, content));
            return;
          }
          if turn.Some? {
            turnCalls := turnCalls + [SaveAssistant(turn.value, content, toolCalls)];
          }
          transcript := ToolRound(transcript, content, toolCalls, ctx, cfg.retryAttempts, cfg.timeoutText, runs, iteration);
      }
      iteration := iteration + 1;
    }
    if turn.Some? {
      turnCalls := turnCalls + [ForceComplete(turn.value)];
    }
    exhausted := true;
    r := Ok(Plain(Assistant, ExhaustedReply));
  }

  // ---------------------------------------------------------------- the streamed follow-up chain

  /**
    The budget the streaming handler passes to its follow-up `complete` call:
    `max_iterations - iteration - 1` with `iteration` always 0 there (a
    streamed `complete` returns from its first iteration), resolved again by
    `max_iterations or settings.max_tool_iterations`.
   */
  function FollowUpBudgetAsWritten(maxIterations: int): int {
    ResolveMaxIterations(Some(maxIterations - 0 - 1))
  }

  /**
    Completion calls of a streamed conversation as written, counted up to
    `fuel` of them: each call whose reply asks for tools (`wantsTools(k)` for
    the k-th call) starts a follow-up with the budget above.
   */
  function StreamedCallsAsWritten(budget: int, wantsTools: nat -> bool, k: nat, fuel: nat): nat
    decreases fuel
  {
    if fuel == 0 || budget <= 0 then 0
    else 1 + (if wantsTools(k) then StreamedCallsAsWritten(FollowUpBudgetAsWritten(budget), wantsTools, k + 1, fuel - 1) else 0)
  }

  /** As written, a spent budget of 1 comes back as the default 4. */
  lemma FollowUpBudgetResets()
    ensures FollowUpBudgetAsWritten(1) == MaxToolIterations
  {
  }

  /**
    As written, when every reply asks for tools the chain makes as many calls
    as any bound allows: starting from the default budget, `fuel` calls for
    every `fuel`, so more than `max_iterations` of them.
   */
  lemma {:induction false} StreamedChainIsUnbounded(budget: int, k: nat, fuel: nat)
    requires 1 <= budget <= MaxToolIterations
    ensures StreamedCallsAsWritten(budget, _ => true, k, fuel) == fuel
    decreases fuel
  {
    if fuel > 0 {
      StreamedChainIsUnbounded(FollowUpBudgetAsWritten(budget), k + 1, fuel - 1);
    }
  }

  /**
    The chain with the budget carried down instead of re-defaulted: a follow-up
    is made only while some of the budget is left.
   */
  function StreamedCalls(budget: int, wantsTools: nat -> bool, k: nat): (r: nat)
    ensures r <= Max(budget, 0)
    ensures budget >= 1 ==> r >= 1
    decreases budget
  {
    if budget <= 0 then 0
    else 1 + (if wantsTools(k) && budget - 1 > 0 then StreamedCalls(budget - 1, wantsTools, k + 1) else 0)
  }

  /** With the budget carried down, a chain that always asks for tools stops after exactly `budget` calls. */
  lemma {:induction false} StreamedChainIsBounded(budget: nat, k: nat)
    ensures StreamedCalls(budget, _ => true, k) == budget
    decreases budget
  {
    if budget > 1 {
      StreamedChainIsBounded(budget - 1, k + 1);
    }
  }
}
