/**
  Python's stable `sort(key=...)`: the result is ordered by the key and
  elements with equal keys keep their original order. The order on keys is a
  parameter: `PyStr.StrLe` for the `timestamp` strings of the history, and
  `>=` on integers for a `reverse=True` sort by relevance.
 */
module Sorting {
  import opened Wrappers
  import opened PyStr
  import opened Messages

  /** `le` is a total order on keys. */
  ghost predicate TotalOrder<K(!new)>(le: (K, K) -> bool) {
    && (forall a, b :: le(a, b) || le(b, a))
    && (forall a, b, c :: le(a, b) && le(b, c) ==> le(a, c))
    && (forall a, b :: le(a, b) && le(b, a) ==> a == b)
  }

  ghost predicate Sorted<T, K>(s: seq<T>, key: T -> K, le: (K, K) -> bool) {
    forall i, j :: 0 <= i < j < |s| ==> le(key(s[i]), key(s[j]))
  }

  /** The elements whose key is `k`. */
  function KeyIs<T, K(==)>(key: T -> K, k: K): T -> bool {
    x => key(x) == k
  }

  /** Insertion after the last element whose key is not above `key(x)`. */
  function Insert<T, K>(r: seq<T>, x: T, key: T -> K, le: (K, K) -> bool): seq<T>
    decreases |r|
  {
    if r == [] || le(key(r[|r| - 1]), key(x)) then r + [x]
    else Insert(r[..|r| - 1], x, key, le) + [r[|r| - 1]]
  }

  /** The stable sort of `s` by `key`. */
  function SortBy<T, K>(s: seq<T>, key: T -> K, le: (K, K) -> bool): seq<T> {
    if s == [] then [] else Insert(SortBy(s[..|s| - 1], key, le), s[|s| - 1], key, le)
  }

  // ---------------------------------------------------------------- the sort, as a loop

  method Sort<T, K(!new)>(s: seq<T>, key: T -> K, le: (K, K) -> bool) returns (r: seq<T>)
    requires TotalOrder(le)
    ensures r == SortBy(s, key, le)
    ensures Sorted(r, key, le)
    ensures multiset(r) == multiset(s)
    ensures forall k :: Filter(r, KeyIs(key, k)) == Filter(s, KeyIs(key, k))
  {
    r := [];
    var i := 0;
    while i < |s|
      invariant i <= |s|
      invariant r == SortBy(s[..i], key, le)
    {
      assert s[..i + 1][..i] == s[..i];
      r := InsertOne(r, s[i], key, le);
      i := i + 1;
    }
    assert s[..i] == s;
    SortBySorted(s, key, le);
    SortByPermutes(s, key, le);
    SortByStable(s, key, le);
  }

  /** Scans back from the end for the insertion point. */
  method InsertOne<T, K>(r: seq<T>, x: T, key: T -> K, le: (K, K) -> bool) returns (r': seq<T>)
    ensures r' == Insert(r, x, key, le)
  {
    var j := |r|;
    assert r[..j] == r && r[j..] == [];
    while j > 0 && !le(key(r[j - 1]), key(x))
      invariant 0 <= j <= |r|
      invariant Insert(r, x, key, le) == Insert(r[..j], x, key, le) + r[j..]
    {
      assert r[..j][..j - 1] == r[..j - 1];
      assert r[j - 1..] == [r[j - 1]] + r[j..];
      j := j - 1;
    }
    r' := r[..j] + [x] + r[j..];
  }

  // ---------------------------------------------------------------- properties

  lemma {:induction false} InsertPermutes<T, K>(r: seq<T>, x: T, key: T -> K, le: (K, K) -> bool)
    ensures multiset(Insert(r, x, key, le)) == multiset(r) + multiset{x}
    decreases |r|
  {
    if r != [] && !le(key(r[|r| - 1]), key(x)) {
      InsertPermutes(r[..|r| - 1], x, key, le);
      assert r == r[..|r| - 1] + [r[|r| - 1]];
    }
  }

  lemma {:induction false} InsertSorted<T, K(!new)>(r: seq<T>, x: T, key: T -> K, le: (K, K) -> bool)
    requires TotalOrder(le) && Sorted(r, key, le)
    ensures Sorted(Insert(r, x, key, le), key, le)
    decreases |r|
  {
    if r != [] && !le(key(r[|r| - 1]), key(x)) {
      var init := r[..|r| - 1];
      var last := r[|r| - 1];
      InsertSorted(init, x, key, le);
      InsertPermutes(init, x, key, le);
      var ins := Insert(init, x, key, le);
      forall i | 0 <= i < |ins| ensures le(key(ins[i]), key(last)) {
        assert ins[i] in multiset(ins);
        if ins[i] != x {
          assert ins[i] in multiset(init);
          var t :| 0 <= t < |init| && init[t] == ins[i];
        }
      }
    }
  }

  /** Inserting `x` appends it to the elements with its key and leaves the other keys' elements alone. */
  lemma {:induction false} InsertStable<T, K(!new)>(r: seq<T>, x: T, key: T -> K, le: (K, K) -> bool, k: K)
    requires TotalOrder(le) && Sorted(r, key, le)
    ensures Filter(Insert(r, x, key, le), KeyIs(key, k)) == Filter(r, KeyIs(key, k)) + Filter([x], KeyIs(key, k))
    decreases |r|
  {
    var p := KeyIs(key, k);
    if r == [] || le(key(r[|r| - 1]), key(x)) {
      FilterAppend(r, [x], p);
    } else {
      var init := r[..|r| - 1];
      var last := r[|r| - 1];
      assert r == init + [last];
      assert Sorted(init, key, le) by {
        forall i, j | 0 <= i < j < |init| ensures le(key(init[i]), key(init[j])) {
          assert init[i] == r[i] && init[j] == r[j];
        }
      }
      InsertStable(init, x, key, le, k);
      FilterAppend(Insert(init, x, key, le), [last], p);
      FilterAppend(init, [last], p);
      // `last` has a larger key than `x`, so at most one of the two has key k
      assert le(key(x), key(x));
      assert Filter([x], p) == [] || Filter([last], p) == [];
    }
  }

  lemma {:induction false} SortByPermutes<T, K>(s: seq<T>, key: T -> K, le: (K, K) -> bool)
    ensures multiset(SortBy(s, key, le)) == multiset(s)
    decreases |s|
  {
    if s != [] {
      SortByPermutes(s[..|s| - 1], key, le);
      InsertPermutes(SortBy(s[..|s| - 1], key, le), s[|s| - 1], key, le);
      assert s == s[..|s| - 1] + [s[|s| - 1]];
    }
  }

  lemma {:induction false} SortBySorted<T, K(!new)>(s: seq<T>, key: T -> K, le: (K, K) -> bool)
    requires TotalOrder(le)
    ensures Sorted(SortBy(s, key, le), key, le)
    decreases |s|
  {
    if s != [] {
      SortBySorted(s[..|s| - 1], key, le);
      InsertSorted(SortBy(s[..|s| - 1], key, le), s[|s| - 1], key, le);
    }
  }

  /** Stability: for every key, the elements with that key appear in their original order. */
  lemma {:induction false} SortByStable<T, K(!new)>(s: seq<T>, key: T -> K, le: (K, K) -> bool)
    requires TotalOrder(le)
    ensures forall k :: Filter(SortBy(s, key, le), KeyIs(key, k)) == Filter(s, KeyIs(key, k))
    decreases |s|
  {
    if s != [] {
      var init := s[..|s| - 1];
      var x := s[|s| - 1];
      assert s == init + [x];
      SortByStable(init, key, le);
      SortBySorted(init, key, le);
      forall k ensures Filter(SortBy(s, key, le), KeyIs(key, k)) == Filter(s, KeyIs(key, k)) {
        InsertStable(SortBy(init, key, le), x, key, le, k);
        FilterAppend(init, [x], KeyIs(key, k));
      }
    }
  }

  // ---------------------------------------------------------------- the two orders in use

  /** Python's `<=` on strings is a total order. */
  lemma StrLeIsTotalOrder()
    ensures TotalOrder(StrLe)
  {
    forall a, b ensures StrLe(a, b) || StrLe(b, a) { StrLeTotal(a, b); }
    forall a, b, c | StrLe(a, b) && StrLe(b, c) ensures StrLe(a, c) { StrLeTransitive(a, b, c); }
    forall a, b | StrLe(a, b) && StrLe(b, a) ensures a == b { StrLeAntisymmetric(a, b); }
  }

  /** The order of a `reverse=True` sort on integers. */
  predicate Descending(a: int, b: int) { a >= b }

  lemma DescendingIsTotalOrder()
    ensures TotalOrder(Descending)
  {
  }

  /** `x.get("timestamp", "")`. */
  function TimestampKey(m: Message): string { m.timestamp.GetOr("") }

  function ToolTimestampKey(r: ToolRecord): string { r.timestamp.GetOr("") }
}
