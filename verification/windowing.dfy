/**
  Turn windowing of a repaired history (`_extract_turns_from_messages`): the
  messages are grouped into turns, each opened by a `user` message and
  continued by the `assistant` and `tool` messages after it; messages before
  the first `user` message and messages of any other role are dropped. With
  `k_turns > 0` only the last `k_turns` turns are kept; the turns are then
  flattened back into one list.
 */
module Windowing {
  import opened Wrappers
  import opened PyStr
  import opened Messages

  predicate IsUser(m: Message) { m.role == User }

  /** `role in ["assistant", "tool"]`: a message that continues the current turn. */
  predicate ContinuesTurn(m: Message) { m.role == Assistant || m.role == Tool }

  /** A turn: a `user` message followed only by `assistant`/`tool` messages. */
  predicate WellFormedTurn(g: seq<Message>) {
    g != [] && IsUser(g[0]) && forall i :: 1 <= i < |g| ==> ContinuesTurn(g[i])
  }

  function Flatten(gs: seq<seq<Message>>): seq<Message> {
    if gs == [] then [] else Flatten(gs[..|gs| - 1]) + gs[|gs| - 1]
  }

  /** The completed turns and the turn being built. */
  datatype Grouping = Grouping(turns: seq<seq<Message>>, current: seq<Message>)

  function GroupStep(g: Grouping, m: Message): Grouping {
    if IsUser(m) then Grouping(if g.current != [] then g.turns + [g.current] else g.turns, [m])
    else if ContinuesTurn(m) && g.current != [] then Grouping(g.turns, g.current + [m])
    else g
  }

  function GroupScan(p: seq<Message>): Grouping {
    if p == [] then Grouping([], []) else GroupStep(GroupScan(p[..|p| - 1]), p[|p| - 1])
  }

  /** All the turns of `p`, the last one included. */
  function Turns(p: seq<Message>): seq<seq<Message>> {
    var g := GroupScan(p);
    if g.current != [] then g.turns + [g.current] else g.turns
  }

  /** The turns selected by `k_turns`: the last `k` when `k > 0`, all of them otherwise. */
  function SelectTurns(gs: seq<seq<Message>>, kTurns: Option<int>): seq<seq<Message>> {
    if kTurns.Some? && kTurns.value > 0 then SliceFrom(gs, -kTurns.value) else gs
  }

  function Window(p: seq<Message>, kTurns: Option<int>): seq<Message> {
    if p == [] then [] else Flatten(SelectTurns(Turns(p), kTurns))
  }

  // ---------------------------------------------------------------- the loop, as the code runs it

  method ExtractTurns(messages: seq<Message>, kTurns: Option<int>) returns (result: seq<Message>)
    ensures result == Window(messages, kTurns)
    ensures IsSubseq(result, messages)
    ensures kTurns.None? || kTurns.value <= 0 ==> result == Kept(messages)
    ensures kTurns.Some? && kTurns.value > 0 ==>
      IsSuffix(result, Kept(messages)) && CountUsers(result) == Min(kTurns.value, CountUsers(messages))
  {
    WindowIsSubseq(messages, kTurns);
    WindowSpec(messages, kTurns);
    if messages == [] {
      return [];
    }
    var turns := GroupTurns(messages);
    if kTurns.Some? && kTurns.value > 0 {
      turns := SliceFrom(turns, -kTurns.value);
    }
    result := FlattenTurns(turns);
  }

  /** The grouping loop over the messages, with `turns` and `current_turn`. */
  method GroupTurns(messages: seq<Message>) returns (turns: seq<seq<Message>>)
    ensures turns == Turns(messages)
  {
    turns := [];
    var currentTurn: seq<Message> := [];
    var n := 0;
    while n < |messages|
      invariant n <= |messages|
      invariant Grouping(turns, currentTurn) == GroupScan(messages[..n])
    {
      var msg := messages[n];
      assert messages[..n + 1][..n] == messages[..n];
      if msg.role == User {
        if currentTurn != [] {
          turns := turns + [currentTurn];
        }
        currentTurn := [msg];
      } else if msg.role == Assistant || msg.role == Tool {
        if currentTurn != [] {
          currentTurn := currentTurn + [msg];
        }
      }
      n := n + 1;
    }
    assert messages[..n] == messages;
    if currentTurn != [] {
      turns := turns + [currentTurn];
    }
  }

  /** `result_messages.extend(turn)` for each selected turn. */
  method FlattenTurns(turns: seq<seq<Message>>) returns (result: seq<Message>)
    ensures result == Flatten(turns)
  {
    result := [];
    var i := 0;
    while i < |turns|
      invariant i <= |turns|
      invariant result == Flatten(turns[..i])
    {
      assert turns[..i + 1][..i] == turns[..i];
      result := result + turns[i];
      i := i + 1;
    }
    assert turns[..i] == turns;
  }

  // ---------------------------------------------------------------- an independent account of what is kept

  /** `p[j]` is kept: a `user` message, or an `assistant`/`tool` message with a `user` message before it. */
  ghost predicate KeptAt(p: seq<Message>, j: int)
    requires 0 <= j < |p|
  {
    IsUser(p[j]) || (ContinuesTurn(p[j]) && exists i :: 0 <= i < j && IsUser(p[i]))
  }

  /** The kept messages of `p`, in order. */
  ghost function Kept(p: seq<Message>): seq<Message> {
    if p == [] then [] else Kept(p[..|p| - 1]) + (if KeptAt(p, |p| - 1) then [p[|p| - 1]] else [])
  }

  function CountUsers(s: seq<Message>): nat {
    |Filter(s, IsUser)|
  }

  predicate IsSuffix(a: seq<Message>, b: seq<Message>) {
    |a| <= |b| && a == b[|b| - |a|..]
  }

  lemma FlattenAppend(a: seq<seq<Message>>, b: seq<seq<Message>>)
    ensures Flatten(a + b) == Flatten(a) + Flatten(b)
    decreases |b|
  {
    if b == [] {
      assert a + b == a;
    } else {
      assert (a + b)[..|a + b| - 1] == a + b[..|b| - 1];
      FlattenAppend(a, b[..|b| - 1]);
    }
  }

  lemma CountUsersAppend(a: seq<Message>, b: seq<Message>)
    ensures CountUsers(a + b) == CountUsers(a) + CountUsers(b)
  {
    FilterAppend(a, b, IsUser);
  }

  /** A well-formed turn holds exactly one user message. */
  lemma {:induction false} TurnHasOneUser(g: seq<Message>)
    requires WellFormedTurn(g)
    ensures CountUsers(g) == 1
  {
    assert g == [g[0]] + g[1..];
    CountUsersAppend([g[0]], g[1..]);
    NoUsers(g[1..]);
  }

  lemma {:induction false} NoUsers(s: seq<Message>)
    requires forall i :: 0 <= i < |s| ==> ContinuesTurn(s[i])
    ensures CountUsers(s) == 0
    decreases |s|
  {
    if s != [] {
      NoUsers(s[1..]);
    }
  }

  lemma {:induction false} FlattenCountsTurns(gs: seq<seq<Message>>)
    requires forall t :: 0 <= t < |gs| ==> WellFormedTurn(gs[t])
    ensures CountUsers(Flatten(gs)) == |gs|
    decreases |gs|
  {
    if gs != [] {
      FlattenCountsTurns(gs[..|gs| - 1]);
      CountUsersAppend(Flatten(gs[..|gs| - 1]), gs[|gs| - 1]);
      TurnHasOneUser(gs[|gs| - 1]);
    }
  }

  ghost predicate GroupingInvariant(p: seq<Message>, g: Grouping) {
    && (forall t :: 0 <= t < |g.turns| ==> WellFormedTurn(g.turns[t]))
    && (g.current == [] <==> forall i :: 0 <= i < |p| ==> !IsUser(p[i]))
    && (g.current != [] ==> WellFormedTurn(g.current))
    && Flatten(g.turns) + g.current == Kept(p)
  }

  lemma {:induction false} GroupScanInvariant(p: seq<Message>)
    ensures GroupingInvariant(p, GroupScan(p))
    decreases |p|
  {
    if p != [] {
      var q := p[..|p| - 1];
      var m := p[|p| - 1];
      GroupScanInvariant(q);
      var g := GroupScan(q);
      assert forall i :: 0 <= i < |q| ==> p[i] == q[i];
      var g' := GroupStep(g, m);
      if IsUser(m) {
        if g.current != [] {
          FlattenAppend(g.turns, [g.current]);
          assert Flatten([g.current]) == g.current by {
            assert [g.current][..0] == [];
          }
        }
        assert KeptAt(p, |q|);
      } else if ContinuesTurn(m) && g.current != [] {
        var i :| 0 <= i < |q| && IsUser(q[i]);
        assert KeptAt(p, |q|);
        assert WellFormedTurn(g'.current) by {
          forall t | 1 <= t < |g'.current| ensures ContinuesTurn(g'.current[t]) {
            if t < |g.current| { assert g'.current[t] == g.current[t]; }
          }
        }
      } else {
        assert !KeptAt(p, |q|);
      }
    }
  }

  /** The turns are well formed, there is one per `user` message, and together they hold exactly the kept messages. */
  lemma TurnsSpec(p: seq<Message>)
    ensures forall t :: 0 <= t < |Turns(p)| ==> WellFormedTurn(Turns(p)[t])
    ensures Flatten(Turns(p)) == Kept(p)
    ensures |Turns(p)| == CountUsers(p)
  {
    GroupScanInvariant(p);
    var g := GroupScan(p);
    if g.current != [] {
      FlattenAppend(g.turns, [g.current]);
      assert Flatten([g.current]) == g.current by {
        assert [g.current][..0] == [];
      }
    }
    FlattenCountsTurns(Turns(p));
    KeptCountsUsers(p);
  }

  /** Every `user` message is kept. */
  lemma {:induction false} KeptCountsUsers(p: seq<Message>)
    ensures CountUsers(Kept(p)) == CountUsers(p)
    decreases |p|
  {
    if p != [] {
      var q := p[..|p| - 1];
      var m := p[|p| - 1];
      assert p == q + [m];
      KeptCountsUsers(q);
      CountUsersAppend(q, [m]);
      CountUsersAppend(Kept(q), if KeptAt(p, |q|) then [m] else []);
    }
  }

  /** The kept messages are a subsequence of the input. */
  lemma {:induction false} KeptIsSubseq(p: seq<Message>)
    ensures IsSubseq(Kept(p), p)
    decreases |p|
  {
    if p == [] {
      assert Embedding([], Kept(p), p);
    } else {
      var q := p[..|p| - 1];
      var m := p[|p| - 1];
      assert p == q + [m];
      KeptIsSubseq(q);
      SubseqSnoc(Kept(q), q, m);
      if KeptAt(p, |q|) {
        assert Kept(p) == Kept(q) + [m];
      } else {
        assert Kept(p) == Kept(q);
      }
    }
  }

  lemma FlattenSuffix(gs: seq<seq<Message>>, k: nat)
    requires k <= |gs|
    ensures IsSuffix(Flatten(gs[k..]), Flatten(gs))
  {
    assert gs == gs[..k] + gs[k..];
    FlattenAppend(gs[..k], gs[k..]);
  }

  // ---------------------------------------------------------------- properties of the window

  /** Empty input gives an empty window. */
  lemma WindowOfEmpty(kTurns: Option<int>)
    ensures Window([], kTurns) == []
  {
  }

  /**
    Without a positive `k_turns` the window is every kept message. With one it
    is a suffix of them holding `min(k, number of turns)` user messages and
    starting at a user message.
   */
  lemma WindowSpec(p: seq<Message>, kTurns: Option<int>)
    ensures kTurns.None? || kTurns.value <= 0 ==> Window(p, kTurns) == Kept(p)
    ensures kTurns.Some? && kTurns.value > 0 ==>
      && IsSuffix(Window(p, kTurns), Kept(p))
      && CountUsers(Window(p, kTurns)) == Min(kTurns.value, CountUsers(p))
      && (Window(p, kTurns) != [] ==> IsUser(Window(p, kTurns)[0]))
  {
    TurnsSpec(p);
    if p == [] {
      assert Kept(p) == [];
    } else if kTurns.Some? && kTurns.value > 0 {
      var gs := Turns(p);
      var sel := SliceFrom(gs, -kTurns.value);
      var start := |gs| - |sel|;
      assert sel == gs[start..];
      FlattenSuffix(gs, start);
      FlattenCountsTurns(sel);
      if sel != [] {
        FirstOfFlatten(sel);
      }
    }
  }

  lemma {:induction false} FirstOfFlatten(gs: seq<seq<Message>>)
    requires gs != [] && forall t :: 0 <= t < |gs| ==> WellFormedTurn(gs[t])
    ensures Flatten(gs) != [] && IsUser(Flatten(gs)[0])
    decreases |gs|
  {
    if |gs| > 1 {
      FirstOfFlatten(gs[..|gs| - 1]);
    } else {
      assert gs[..0] == [];
    }
  }

  /** The window is the input with some messages left out, the rest in order. */
  lemma WindowIsSubseq(p: seq<Message>, kTurns: Option<int>)
    ensures IsSubseq(Window(p, kTurns), p)
  {
    WindowSpec(p, kTurns);
    KeptIsSubseq(p);
    if kTurns.Some? && kTurns.value > 0 {
      SuffixOfSubseq(Window(p, kTurns), Kept(p), p);
    }
  }

  lemma SuffixOfSubseq(w: seq<Message>, kept: seq<Message>, p: seq<Message>)
    requires IsSuffix(w, kept) && IsSubseq(kept, p)
    ensures IsSubseq(w, p)
  {
    SuffixIsSubseq(kept, |kept| - |w|);
    SubseqTrans(w, kept, p);
  }
}
