/**
  Validation and repair of the tool-call pairing in a stored history
  (`_validate_and_repair_tool_calls`). A left-to-right pass keeps the messages
  built so far and a `pending` dict from each announced, still unanswered
  tool-call id to the assistant message that announced it:

  - an assistant message with tool calls is kept and announces its ids;
  - a `tool` message is kept only when its id is non-empty and pending, and
    then resolves that id; otherwise it is dropped;
  - a `user` message arriving while ids are pending first removes every kept
    message equal to a pending announcer and clears `pending`;
  - any other message is kept;
  - at the end, every kept message equal to a still-pending announcer is removed.

  Tool results already accepted for a removed announcer are not removed.
 */
module Repair {
  import opened Wrappers
  import opened Messages

  datatype PassState = PassState(out: seq<Message>, pending: map<string, Message>)

  /** `pending[tool_call["id"]] = msg` for every call of `m`. */
  function Announce(pending: map<string, Message>, m: Message): map<string, Message> {
    pending + map id | id in CallIds(m.toolCalls) :: m
  }

  /** `out` without the messages equal to one of `gone` (`repaired_messages[i] in pending_tool_calls.values()`). */
  function Drop(out: seq<Message>, gone: set<Message>): (r: seq<Message>)
    ensures |r| <= |out|
  {
    if out == [] then [] else (if out[0] in gone then [] else [out[0]]) + Drop(out[1..], gone)
  }

  /** Whether a `tool` message is accepted against `pending`. */
  predicate Resolves(pending: map<string, Message>, m: Message) {
    m.toolCallId != "" && m.toolCallId in pending
  }

  /** The effect of one message on the pass. */
  function Step(st: PassState, m: Message): PassState {
    if IsAnnouncer(m) then PassState(st.out + [m], Announce(st.pending, m))
    else if m.role == Tool then
      if Resolves(st.pending, m) then PassState(st.out + [m], st.pending - {m.toolCallId}) else st
    else if m.role == User && st.pending != map[] then PassState(Drop(st.out, st.pending.Values) + [m], map[])
    else PassState(st.out + [m], st.pending)
  }

  /** The state of the pass after the messages `p`. */
  function Scan(p: seq<Message>): PassState {
    if p == [] then PassState([], map[]) else Step(Scan(p[..|p| - 1]), p[|p| - 1])
  }

  /** The final clean-up of the announcers still pending. */
  function Finish(st: PassState): seq<Message> {
    if st.pending != map[] then Drop(st.out, st.pending.Values) else st.out
  }

  /** The output of the repair pass. */
  function Repaired(p: seq<Message>): seq<Message> {
    Finish(Scan(p))
  }

  // ---------------------------------------------------------------- the pass, as the code runs it

  /** The repair loop; `pending` and `repaired` are its local dict and list. */
  method ValidateAndRepair(messages: seq<Message>) returns (repaired: seq<Message>)
    ensures repaired == Repaired(messages)
    ensures IsSubseq(repaired, messages)
    ensures Filter(repaired, IsRegular) == Filter(messages, IsRegular)
  {
    repaired := [];
    var pending: map<string, Message> := map[];
    var n := 0;
    while n < |messages|
      invariant n <= |messages|
      invariant PassState(repaired, pending) == Scan(messages[..n])
    {
      var msg := messages[n];
      assert messages[..n + 1][..n] == messages[..n];
      if msg.role == Assistant && msg.toolCalls != [] {
        pending := AnnounceAll(pending, msg);
        repaired := repaired + [msg];
      } else if msg.role == Tool {
        if msg.toolCallId != "" && msg.toolCallId in pending {
          repaired := repaired + [msg];
          pending := pending - {msg.toolCallId};
        }
      } else {
        if pending != map[] && msg.role == User {
          repaired := RemoveMatching(repaired, pending.Values);
          pending := map[];
        }
        repaired := repaired + [msg];
      }
      n := n + 1;
    }
    assert messages[..n] == messages;
    if pending != map[] {
      repaired := RemoveMatching(repaired, pending.Values);
    }
    RepairedIsSubseq(messages);
    RepairKeepsRegular(messages);
  }

  /** The inner loop over `msg["tool_calls"]`. */
  method AnnounceAll(pending: map<string, Message>, msg: Message) returns (r: map<string, Message>)
    ensures r == Announce(pending, msg)
    ensures forall id :: id in r <==> id in pending || id in CallIds(msg.toolCalls)
  {
    r := pending;
    var k := 0;
    while k < |msg.toolCalls|
      invariant k <= |msg.toolCalls|
      invariant r == pending + map id | id in CallIds(msg.toolCalls[..k]) :: msg
    {
      assert CallIds(msg.toolCalls[..k + 1]) == CallIds(msg.toolCalls[..k]) + [msg.toolCalls[k].id];
      AnnounceOneMore(pending, msg, CallIds(msg.toolCalls[..k]), CallIds(msg.toolCalls[..k + 1]), msg.toolCalls[k].id);
      r := r[msg.toolCalls[k].id := msg];
      k := k + 1;
    }
    assert msg.toolCalls[..k] == msg.toolCalls;
  }

  /** One more announced id is registered for `msg`. */
  lemma AnnounceOneMore(pending: map<string, Message>, msg: Message, ids: seq<string>, more: seq<string>, x: string)
    requires more == ids + [x]
    ensures pending + (map id | id in more :: msg) == (pending + map id | id in ids :: msg)[x := msg]
  {
    var a := pending + map id | id in more :: msg;
    var b := (pending + map id | id in ids :: msg)[x := msg];
    assert a.Keys == b.Keys;
  }

  /** Collects the positions holding a message of `gone` and pops them, highest first. */
  method RemoveMatching(out: seq<Message>, gone: set<Message>) returns (r: seq<Message>)
    ensures r == Drop(out, gone)
    ensures forall i :: 0 <= i < |r| ==> r[i] !in gone
    ensures forall i :: 0 <= i < |out| && out[i] !in gone ==> out[i] in r
  {
    r := [];
    var i := |out|;
    while i > 0
      invariant 0 <= i <= |out|
      invariant r == Drop(out[i..], gone)
    {
      i := i - 1;
      assert out[i..][1..] == out[i + 1..];
      assert out[i..][0] == out[i];
      if out[i] !in gone {
        r := [out[i]] + r;
      }
    }
    assert out[0..] == out;
    DropMembers(out, gone);
  }

  // ---------------------------------------------------------------- invariants of the pass

  /** Removal by value never touches a tool result or a regular message, since only announcers are removed. */
  lemma {:induction false} DropKeepsOthers(out: seq<Message>, gone: set<Message>)
    requires forall g :: g in gone ==> IsAnnouncer(g)
    ensures Filter(Drop(out, gone), IsToolMessage) == Filter(out, IsToolMessage)
    ensures Filter(Drop(out, gone), IsRegular) == Filter(out, IsRegular)
    decreases |out|
  {
    if out != [] {
      DropKeepsOthers(out[1..], gone);
      var head := if out[0] in gone then [] else [out[0]];
      assert Drop(out, gone) == head + Drop(out[1..], gone);
      FilterAppend(head, Drop(out[1..], gone), IsToolMessage);
      FilterAppend(head, Drop(out[1..], gone), IsRegular);
      assert out == [out[0]] + out[1..];
      FilterAppend([out[0]], out[1..], IsToolMessage);
      FilterAppend([out[0]], out[1..], IsRegular);
    }
  }

  /** Removal by value leaves the other messages in their order. */
  lemma {:induction false} DropIsSubseq(out: seq<Message>, gone: set<Message>)
    ensures IsSubseq(Drop(out, gone), out)
    decreases |out|
  {
    if out == [] {
      assert Embedding([], Drop(out, gone), out);
    } else {
      DropIsSubseq(out[1..], gone);
      SubseqCons(Drop(out[1..], gone), out);
      if out[0] in gone {
        assert Drop(out, gone) == Drop(out[1..], gone);
      } else {
        assert Drop(out, gone) == [out[0]] + Drop(out[1..], gone);
      }
    }
  }

  /** Exactly the messages not in `gone` remain. */
  lemma {:induction false} DropMembers(out: seq<Message>, gone: set<Message>)
    ensures forall x :: x in Drop(out, gone) <==> x in out && x !in gone
    decreases |out|
  {
    if out != [] {
      DropMembers(out[1..], gone);
      assert out == [out[0]] + out[1..];
    }
  }

  /** The list built so far is a subsequence of the messages seen. */
  lemma {:induction false} ScanSubseq(p: seq<Message>)
    ensures IsSubseq(Scan(p).out, p)
    decreases |p|
  {
    if p == [] {
      assert Embedding([], Scan(p).out, p);
    } else {
      var q := p[..|p| - 1];
      var m := p[|p| - 1];
      assert p == q + [m];
      ScanSubseq(q);
      var st := Scan(q);
      if m.role == User && st.pending != map[] && !IsAnnouncer(m) {
        DropIsSubseq(st.out, st.pending.Values);
        SubseqTrans(Drop(st.out, st.pending.Values), st.out, q);
        SubseqSnoc(Drop(st.out, st.pending.Values), q, m);
      } else {
        SubseqSnoc(st.out, q, m);
      }
    }
  }

  /** Every pending id maps to an announcer that is in the list built so far. */
  lemma {:induction false} ScanPending(p: seq<Message>)
    ensures forall k :: k in Scan(p).pending ==> IsAnnouncer(Scan(p).pending[k]) && Scan(p).pending[k] in Scan(p).out
    decreases |p|
  {
    if p != [] {
      ScanPending(p[..|p| - 1]);
    }
  }

  /** The regular messages seen so far are all in the list built so far. */
  lemma {:induction false} ScanRegular(p: seq<Message>)
    ensures Filter(Scan(p).out, IsRegular) == Filter(p, IsRegular)
    decreases |p|
  {
    if p != [] {
      var q := p[..|p| - 1];
      var m := p[|p| - 1];
      assert p == q + [m];
      ScanRegular(q);
      ScanPending(q);
      var st := Scan(q);
      FilterAppend(q, [m], IsRegular);
      if IsAnnouncer(m) || (m.role == Tool && Resolves(st.pending, m)) {
        FilterAppend(st.out, [m], IsRegular);
      } else if m.role == Tool {
      } else if m.role == User && st.pending != map[] {
        DropKeepsOthers(st.out, st.pending.Values);
        FilterAppend(Drop(st.out, st.pending.Values), [m], IsRegular);
      } else {
        FilterAppend(st.out, [m], IsRegular);
      }
    }
  }

  /** The tool results in the list built so far are the accepted ones. */
  lemma {:induction false} ScanTools(p: seq<Message>)
    ensures Filter(Scan(p).out, IsToolMessage) == AcceptedTools(p)
    decreases |p|
  {
    if p != [] {
      var q := p[..|p| - 1];
      var m := p[|p| - 1];
      ScanTools(q);
      ScanPending(q);
      AcceptedLast(p);
      var st := Scan(q);
      if IsAnnouncer(m) || (m.role == Tool && Resolves(st.pending, m)) {
        FilterAppend(st.out, [m], IsToolMessage);
      } else if m.role == Tool {
      } else if m.role == User && st.pending != map[] {
        DropKeepsOthers(st.out, st.pending.Values);
        FilterAppend(Drop(st.out, st.pending.Values), [m], IsToolMessage);
      } else {
        FilterAppend(st.out, [m], IsToolMessage);
      }
    }
  }

  // ---------------------------------------------------------------- an independent account of pending ids

  /**
    The call `k` announced by `p[i]` is still unanswered after `p`: no `user`
    message and no `tool` message answering `k` comes after position `i`.
   */
  ghost predicate Unresolved(p: seq<Message>, k: string, i: int) {
    0 <= i < |p| && Announces(p[i], k) && forall j :: i < j < |p| ==> Undisturbed(p[j], k)
  }

  /** `m` is an assistant message announcing the call `k`. */
  predicate Announces(m: Message, k: string) {
    IsAnnouncer(m) && k in CallIds(m.toolCalls)
  }

  /** `m` neither starts a new user request nor answers `k`. */
  predicate Undisturbed(m: Message, k: string) {
    m.role != User && !(m.role == Tool && k != "" && m.toolCallId == k)
  }

  /** `p[i]` is the last message of `p` announcing `k`. */
  ghost predicate LastAnnouncer(p: seq<Message>, k: string, i: int) {
    0 <= i < |p| && forall j :: i < j < |p| ==> !Announces(p[j], k)
  }

  /** The tool message `p[j]` answers a call still unanswered before it. */
  ghost predicate Accepted(p: seq<Message>, j: int)
    requires 0 <= j < |p|
  {
    IsToolMessage(p[j]) && p[j].toolCallId != "" && exists i :: Unresolved(p[..j], p[j].toolCallId, i)
  }

  /** The accepted tool messages of `p`, in order. */
  ghost function AcceptedTools(p: seq<Message>): seq<Message> {
    if p == [] then [] else AcceptedTools(p[..|p| - 1]) + (if Accepted(p, |p| - 1) then [p[|p| - 1]] else [])
  }

  lemma UnresolvedSnoc(q: seq<Message>, m: Message, k: string, i: int)
    ensures Unresolved(q + [m], k, i) <==> (i == |q| && Announces(m, k)) || (Unresolved(q, k, i) && Undisturbed(m, k))
  {
    var p := q + [m];
    if 0 <= i < |q| {
      assert p[i] == q[i] && p[|q|] == m;
      if Unresolved(q, k, i) && Undisturbed(m, k) {
        forall j | i < j < |p| ensures Undisturbed(p[j], k) {
          if j < |q| { assert p[j] == q[j]; }
        }
      }
      if Unresolved(p, k, i) {
        forall j | i < j < |q| ensures Undisturbed(q[j], k) {
          assert p[j] == q[j];
        }
      }
    }
  }

  lemma LastAnnouncerSnoc(q: seq<Message>, m: Message, k: string, i: int)
    requires 0 <= i < |q|
    ensures LastAnnouncer(q + [m], k, i) <==> LastAnnouncer(q, k, i) && !Announces(m, k)
  {
    var p := q + [m];
    assert p[|q|] == m;
    if LastAnnouncer(q, k, i) && !Announces(m, k) {
      forall j | i < j < |p| ensures !Announces(p[j], k) {
        if j < |q| { assert p[j] == q[j]; }
      }
    }
    if LastAnnouncer(p, k, i) {
      forall j | i < j < |q| ensures !Announces(q[j], k) {
        assert p[j] == q[j];
      }
    }
  }

  /** An id is pending exactly when some announcement of it is unanswered, and it maps to its last announcer. */
  lemma {:induction false} PendingExactly(p: seq<Message>, k: string)
    ensures k in Scan(p).pending <==> exists i :: Unresolved(p, k, i)
    ensures forall i :: Unresolved(p, k, i) && LastAnnouncer(p, k, i) ==> Scan(p).pending[k] == p[i]
    decreases |p|
  {
    if p != [] {
      var q := p[..|p| - 1];
      var m := p[|p| - 1];
      assert p == q + [m];
      PendingExactly(q, k);
      forall i ensures Unresolved(p, k, i) <==> (i == |q| && Announces(m, k)) || (Unresolved(q, k, i) && Undisturbed(m, k)) {
        UnresolvedSnoc(q, m, k, i);
      }
      forall i | 0 <= i < |q| ensures LastAnnouncer(p, k, i) <==> LastAnnouncer(q, k, i) && !Announces(m, k) {
        LastAnnouncerSnoc(q, m, k, i);
      }
      var st := Scan(q);
      if Announces(m, k) {
        assert Unresolved(p, k, |q|);
      } else if !Undisturbed(m, k) {
        if k in st.pending {
          assert m.role == User ==> st.pending != map[];
          assert m.role == Tool ==> Resolves(st.pending, m);
        }
      }
    }
  }

  /** How `AcceptedTools` grows by the last message, in terms of the pass. */
  lemma AcceptedLast(p: seq<Message>)
    requires p != []
    ensures var m := p[|p| - 1];
      Accepted(p, |p| - 1) <==> IsToolMessage(m) && Resolves(Scan(p[..|p| - 1]).pending, m)
  {
    var m := p[|p| - 1];
    assert p[..|p| - 1] == p[..|p| - 1];
    PendingExactly(p[..|p| - 1], m.toolCallId);
  }

  // ---------------------------------------------------------------- properties of the output

  /** The output is the input with some messages left out, the rest in their original order. */
  lemma RepairedIsSubseq(p: seq<Message>)
    ensures IsSubseq(Repaired(p), p)
  {
    ScanSubseq(p);
    var st := Scan(p);
    if st.pending != map[] {
      DropIsSubseq(st.out, st.pending.Values);
      SubseqTrans(Drop(st.out, st.pending.Values), st.out, p);
    }
  }

  /** Messages that are neither tool results nor announcers are all kept, in order. */
  lemma RepairKeepsRegular(p: seq<Message>)
    ensures Filter(Repaired(p), IsRegular) == Filter(p, IsRegular)
  {
    ScanRegular(p);
    ScanPending(p);
    var st := Scan(p);
    if st.pending != map[] {
      DropKeepsOthers(st.out, st.pending.Values);
    }
  }

  /**
    The tool results of the output are exactly the accepted ones: each answers
    a call announced earlier and still unanswered at that point.
   */
  lemma RepairKeepsAcceptedTools(p: seq<Message>)
    ensures Filter(Repaired(p), IsToolMessage) == AcceptedTools(p)
  {
    ScanTools(p);
    ScanPending(p);
    var st := Scan(p);
    if st.pending != map[] {
      DropKeepsOthers(st.out, st.pending.Values);
    }
  }

  /** When a tool result is accepted, its announcer is in the list built so far. */
  lemma AcceptedHasKeptAnnouncer(p: seq<Message>, j: int)
    requires 0 <= j < |p| && Accepted(p, j)
    ensures var st := Scan(p[..j]);
      p[j].toolCallId in st.pending && IsAnnouncer(st.pending[p[j].toolCallId])
      && st.pending[p[j].toolCallId] in st.out
  {
    PendingExactly(p[..j], p[j].toolCallId);
    ScanPending(p[..j]);
  }

  /** Two accepted results for the same id are separated by a new announcement of that id. */
  lemma AtMostOneResultPerAnnouncement(p: seq<Message>, j1: int, j2: int)
    requires 0 <= j1 < j2 < |p| && Accepted(p, j1) && Accepted(p, j2)
    requires p[j1].toolCallId == p[j2].toolCallId
    ensures exists i :: j1 < i < j2 && IsAnnouncer(p[i]) && p[j2].toolCallId in CallIds(p[i].toolCalls)
  {
    var k := p[j2].toolCallId;
    var i :| Unresolved(p[..j2], k, i);
    assert p[..j2][j1] == p[j1] && !Undisturbed(p[j1], k);
    assert j1 < i;
    assert p[..j2][i] == p[i];
  }

  /** A `user` message arriving with calls pending removes the last announcer of each of them. */
  lemma UserDropsUnresolved(p: seq<Message>, j: int, k: string, i: int)
    requires 0 <= j < |p| && p[j].role == User
    requires Unresolved(p[..j], k, i) && LastAnnouncer(p[..j], k, i)
    ensures p[i] !in Scan(p[..j + 1]).out[..|Scan(p[..j + 1]).out| - 1]
    ensures Scan(p[..j + 1]).pending == map[]
  {
    assert p[..j + 1][..j] == p[..j];
    PendingExactly(p[..j], k);
    var st := Scan(p[..j]);
    assert st.pending[k] == p[..j][i] == p[i];
    assert st.pending[k] in st.pending.Values;
    assert Scan(p[..j + 1]) == Step(st, p[j]);
    DropMembers(st.out, st.pending.Values);
    assert Scan(p[..j + 1]).out[..|Scan(p[..j + 1]).out| - 1] == Drop(st.out, st.pending.Values);
  }

  /** An announcer whose call is still unanswered at the end is not in the output. */
  lemma EndDropsUnresolved(p: seq<Message>, k: string, i: int)
    requires Unresolved(p, k, i) && LastAnnouncer(p, k, i)
    ensures p[i] !in Repaired(p)
  {
    PendingExactly(p, k);
    var st := Scan(p);
    assert st.pending[k] in st.pending.Values;
    DropMembers(st.out, st.pending.Values);
  }

  // ---------------------------------------------------------------- what the pass does not do

  /** A tool-calling assistant message announcing `ids`. */
  function Announcer(ids: seq<string>): Message {
    Message(Assistant, "", seq(|ids|, i requires 0 <= i < |ids| => ToolCall(ids[i], "lookup", "{}")),
            "", None, None, None, None, None)
  }

  function ToolResult(id: string): Message {
    Message(Tool, "ok", [], id, Some("lookup"), None, None, None, None)
  }

  lemma ScanSnoc(q: seq<Message>, m: Message)
    ensures Scan(q + [m]) == Step(Scan(q), m)
  {
    assert (q + [m])[..|q|] == q;
  }

  lemma SingletonValues(k: string, v: Message)
    ensures map[k := v].Values == {v}
  {
    var mm := map[k := v];
    assert mm[k] == v;
    assert v in mm.Values;
  }

  lemma AnnounceTwo(pending: map<string, Message>)
    ensures var a := Announcer(["c1", "c2"]);
      IsAnnouncer(a) && Announce(pending, a) == pending["c1" := a]["c2" := a]
  {
    var a := Announcer(["c1", "c2"]);
    assert a.toolCalls == [ToolCall("c1", "lookup", "{}"), ToolCall("c2", "lookup", "{}")];
    assert CallIds(a.toolCalls) == ["c1", "c2"];
  }

  /**
    A history ending in an announcer of two calls with one answer keeps that
    answer: the result is `[T(c1)]`, not the empty list.
   */
  lemma PartialResultSurvives()
    ensures Repaired([Announcer(["c1", "c2"]), ToolResult("c1")]) == [ToolResult("c1")]
  {
    var a := Announcer(["c1", "c2"]);
    var t := ToolResult("c1");
    AnnounceTwo(map[]);
    ScanSnoc([], a);
    assert [] + [a] == [a];
    assert Scan([a]) == PassState([a], map["c1" := a, "c2" := a]);
    ScanSnoc([a], t);
    assert [a] + [t] == [a, t];
    AnswerFirst([a]);
    SingletonValues("c2", a);
    assert Drop([a, t], {a}) == [t];
  }

  /** Running the pass on its own output can drop more: the pass is not idempotent. */
  lemma RepairNotIdempotent()
    ensures var p := [Plain(User, "q1"), Announcer(["c1", "c2"]), ToolResult("c1"), Plain(User, "q2")];
      Repaired(Repaired(p)) != Repaired(p)
  {
    FirstPass();
    SecondPass();
  }

  /** The user message `q2` removes the announcer but keeps the answer to `c1`. */
  lemma FirstPass()
    ensures Repaired([Plain(User, "q1"), Announcer(["c1", "c2"]), ToolResult("c1"), Plain(User, "q2")])
         == [Plain(User, "q1"), ToolResult("c1"), Plain(User, "q2")]
  {
    var u1 := Plain(User, "q1");
    var u2 := Plain(User, "q2");
    var a := Announcer(["c1", "c2"]);
    var t := ToolResult("c1");
    PartialTurn();
    ScanSnoc([u1, a, t], u2);
    assert [u1, a, t] + [u2] == [u1, a, t, u2];
    SingletonValues("c2", a);
    assert [u1, a, t][1..] == [a, t] && [a, t][1..] == [t] && [t][1..] == [];
    assert Drop([t], {a}) == [t];
    assert Drop([a, t], {a}) == [t];
    assert Drop([u1, a, t], {a}) == [u1, t];
    assert Scan([u1, a, t, u2]) == PassState([u1, t, u2], map[]);
  }

  lemma PartialTurn()
    ensures var a := Announcer(["c1", "c2"]);
      Scan([Plain(User, "q1"), a, ToolResult("c1")]) == PassState([Plain(User, "q1"), a, ToolResult("c1")], map["c2" := a])
  {
    var u1 := Plain(User, "q1");
    var a := Announcer(["c1", "c2"]);
    var t := ToolResult("c1");
    AnnounceTwo(map[]);
    ScanSnoc([], u1);
    assert [] + [u1] == [u1];
    assert Scan([u1]) == PassState([u1], map[]);
    ScanSnoc([u1], a);
    assert [u1] + [a] == [u1, a];
    assert Scan([u1, a]) == PassState([u1, a], map["c1" := a, "c2" := a]);
    ScanSnoc([u1, a], t);
    assert [u1, a] + [t] == [u1, a, t];
    AnswerFirst([u1, a]);
  }

  /** Answering `c1` of a two-call announcer leaves only `c2` pending. */
  lemma AnswerFirst(out: seq<Message>)
    ensures var a := Announcer(["c1", "c2"]);
      Step(PassState(out, map["c1" := a, "c2" := a]), ToolResult("c1")) == PassState(out + [ToolResult("c1")], map["c2" := a])
  {
    var a := Announcer(["c1", "c2"]);
    var pending := map["c1" := a, "c2" := a];
    assert Resolves(pending, ToolResult("c1"));
    assert pending - {"c1"} == map["c2" := a];
  }

  /** On the second pass the answer to `c1` has no announcer and is dropped. */
  lemma SecondPass()
    ensures Repaired([Plain(User, "q1"), ToolResult("c1"), Plain(User, "q2")]) == [Plain(User, "q1"), Plain(User, "q2")]
  {
    var u1 := Plain(User, "q1");
    var u2 := Plain(User, "q2");
    var t := ToolResult("c1");
    ScanSnoc([], u1);
    assert [] + [u1] == [u1];
    ScanSnoc([u1], t);
    assert [u1] + [t] == [u1, t];
    ScanSnoc([u1, t], u2);
    assert [u1, t] + [u2] == [u1, t, u2];
  }
}
