/**
  The records the engine stores and exchanges: chat messages, the tool calls an
  assistant message announces, and tool-call audit entries. A Python `dict`
  message becomes a record whose optional keys are `Option`s; a key that is
  absent, `None` or empty is represented by the same value wherever the code
  only tests its truthiness (`""` for a tool-call id, `[]` for `tool_calls`).
 */
module Messages {
  import opened Wrappers
  import opened Json

  /** A reading of the clock: microseconds for age arithmetic and the ISO-8601 text that is stored. */
  datatype Instant = Instant(micros: int, iso: string)

  datatype Role = User | Assistant | Tool | System | Other(name: string)

  /** One entry of an assistant message's `tool_calls`: `{"id", "type": "function", "function": {"name", "arguments"}}`. */
  datatype ToolCall = ToolCall(id: string, name: string, arguments: string)

  datatype Message = Message(
    role: Role,
    content: string,
    toolCalls: seq<ToolCall>,        // `tool_calls`, assistant only; [] when absent
    toolCallId: string,              // `tool_call_id`, tool only; "" when absent or None
    name: Option<string>,            // tool name, tool only
    messageId: Option<string>,
    turnId: Option<string>,
    error: Option<string>,
    timestamp: Option<string>)

  /** One tool-call audit entry of the separate tool history. */
  datatype ToolRecord = ToolRecord(
    toolCallId: string,              // "" when None
    toolName: string,
    arguments: Json,
    result: Option<Json>,
    error: Option<string>,
    timestamp: Option<string>)

  function CallIds(calls: seq<ToolCall>): (ids: seq<string>)
    ensures |ids| == |calls| && forall i :: 0 <= i < |calls| ==> ids[i] == calls[i].id
  {
    seq(|calls|, i requires 0 <= i < |calls| => calls[i].id)
  }

  /** An assistant message that announces at least one tool call (`role == "assistant" and msg.get("tool_calls")`). */
  predicate IsAnnouncer(m: Message) { m.role == Assistant && m.toolCalls != [] }
  predicate IsToolMessage(m: Message) { m.role == Tool }
  /** Neither a tool result nor an announcing assistant message. */
  predicate IsRegular(m: Message) { !IsAnnouncer(m) && !IsToolMessage(m) }

  /** A message with only the role and the content, as the agent builds for the LLM. */
  function Plain(role: Role, content: string): Message {
    Message(role, content, [], "", None, None, None, None, None)
  }

  // ---------------------------------------------------------------- filters and subsequences

  function Filter<T>(s: seq<T>, p: T -> bool): (r: seq<T>)
    ensures |r| <= |s|
    ensures forall i :: 0 <= i < |r| ==> r[i] in s && p(r[i])
    ensures forall i :: 0 <= i < |s| && p(s[i]) ==> s[i] in r
  {
    if s == [] then [] else (if p(s[0]) then [s[0]] else []) + Filter(s[1..], p)
  }

  lemma {:induction false} FilterAppend<T>(a: seq<T>, b: seq<T>, p: T -> bool)
    ensures Filter(a + b, p) == Filter(a, p) + Filter(b, p)
    decreases |a|
  {
    if a != [] {
      FilterAppend(a[1..], b, p);
      assert (a + b)[1..] == a[1..] + b;
    } else {
      assert a + b == b;
    }
  }

  /** `idx` lists, in increasing order, the positions of `b` at which the elements of `a` stand. */
  ghost predicate Embedding<T>(idx: seq<int>, a: seq<T>, b: seq<T>) {
    && |idx| == |a|
    && (forall i :: 0 <= i < |idx| ==> 0 <= idx[i] < |b| && a[i] == b[idx[i]])
    && (forall i, j :: 0 <= i < j < |idx| ==> idx[i] < idx[j])
  }

  /** `a` is `b` with some elements left out, the rest in their original order. */
  ghost predicate IsSubseq<T>(a: seq<T>, b: seq<T>) {
    exists idx :: Embedding(idx, a, b)
  }

  lemma SubseqRefl<T>(a: seq<T>)
    ensures IsSubseq(a, a)
  {
    var idx := seq(|a|, i => i);
    assert Embedding(idx, a, a);
  }

  lemma SubseqSnoc<T>(a: seq<T>, b: seq<T>, x: T)
    requires IsSubseq(a, b)
    ensures IsSubseq(a + [x], b + [x]) && IsSubseq(a, b + [x])
  {
    var idx :| Embedding(idx, a, b);
    assert Embedding(idx + [|b|], a + [x], b + [x]);
    assert Embedding(idx, a, b + [x]);
  }

  lemma SubseqCons<T>(a: seq<T>, b: seq<T>)
    requires b != [] && IsSubseq(a, b[1..])
    ensures IsSubseq(a, b) && IsSubseq([b[0]] + a, b)
  {
    var idx :| Embedding(idx, a, b[1..]);
    var shifted := seq(|idx|, i requires 0 <= i < |idx| => idx[i] + 1);
    assert Embedding(shifted, a, b);
    assert Embedding([0] + shifted, [b[0]] + a, b);
  }

  lemma SubseqTrans<T>(a: seq<T>, b: seq<T>, c: seq<T>)
    requires IsSubseq(a, b) && IsSubseq(b, c)
    ensures IsSubseq(a, c)
  {
    var i1 :| Embedding(i1, a, b);
    var i2 :| Embedding(i2, b, c);
    var idx := seq(|a|, i requires 0 <= i < |a| => i2[i1[i]]);
    assert Embedding(idx, a, c);
  }

  lemma {:induction false} FilterIsSubseq<T>(s: seq<T>, p: T -> bool)
    ensures IsSubseq(Filter(s, p), s)
    decreases |s|
  {
    if s == [] {
      assert Embedding([], Filter(s, p), s);
    } else {
      FilterIsSubseq(s[1..], p);
      SubseqCons(Filter(s[1..], p), s);
      if p(s[0]) {
        assert Filter(s, p) == [s[0]] + Filter(s[1..], p);
      } else {
        assert Filter(s, p) == Filter(s[1..], p);
      }
    }
  }

  lemma SuffixIsSubseq<T>(s: seq<T>, k: nat)
    requires k <= |s|
    ensures IsSubseq(s[k..], s)
  {
    var idx := seq(|s| - k, i => i + k);
    assert Embedding(idx, s[k..], s);
  }
}
