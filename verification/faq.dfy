/**
  FAQ search of the customer-service example
  (examples/customer_service_agent/tools/faq_search.py): substring matching
  of the lower-cased query against questions, answers and tags, an integer
  relevance score, a stable sort by decreasing score and truncation. The FAQ
  table is an input: a list of categories in dictionary order.
 */
module Faq {
  import opened Wrappers
  import opened PyStr
  import opened Messages
  import opened Sorting

  datatype FaqEntry = FaqEntry(question: string, answer: string, category: string, tags: seq<string>)

  /** One key of `FAQ_DATABASE` with its entries. */
  datatype Section = Section(name: string, entries: seq<FaqEntry>)

  datatype FaqResult = FaqResult(question: string, answer: string, category: string, tags: seq<string>,
                                 relevanceScore: int)

  datatype SearchReply = SearchReply(success: bool, query: string, resultsCount: int, results: seq<FaqResult>,
                                     message: string)

  const DefaultMaxResults := 3

  const NoResultMessage :=
    "I couldn't find a specific FAQ answer for your question. Would you like me to create a support ticket to get you personalized help?"

  function Names(db: seq<Section>): (ns: seq<string>)
    ensures |ns| == |db| && forall i :: 0 <= i < |db| ==> ns[i] == db[i].name
  {
    seq(|db|, i requires 0 <= i < |db| => db[i].name)
  }

  /** A dictionary has each key once. */
  predicate UniqueNames(db: seq<Section>) {
    forall i, j :: 0 <= i < j < |db| ==> db[i].name != db[j].name
  }

  /** `FAQ_DATABASE[name]`. */
  function Lookup(db: seq<Section>, name: string): (es: seq<FaqEntry>)
    ensures es != [] ==> name in Names(db)
    ensures forall i :: 0 <= i < |db| && db[i].name == name && UniqueNames(db) ==> es == db[i].entries
  {
    if db == [] then []
    else if db[0].name == name then db[0].entries
    else
      assert forall i :: 1 <= i < |db| ==> db[1..][i - 1] == db[i];
      Lookup(db[1..], name)
  }

  /** `"all"` means every category, a known name only that one, anything else none. */
  function CategoriesToSearch(db: seq<Section>, category: string): (cats: seq<string>)
    ensures category == "all" ==> cats == Names(db)
    ensures category != "all" && category in Names(db) ==> cats == [category]
    ensures category != "all" && category !in Names(db) ==> cats == []
  {
    if category == "all" then Names(db) else if category in Names(db) then [category] else []
  }

  /** `query in question_lower or query in answer_lower or any(query in tag for tag in tags_lower)`. */
  predicate Matches(query: string, e: FaqEntry) {
    || Contains(Lower(e.question), query)
    || Contains(Lower(e.answer), query)
    || exists t :: t in e.tags && Contains(Lower(t), query)
  }

  function LowerAll(ts: seq<string>): (r: seq<string>)
    ensures |r| == |ts| && forall i :: 0 <= i < |ts| ==> r[i] == Lower(ts[i])
  {
    seq(|ts|, i requires 0 <= i < |ts| => Lower(ts[i]))
  }

  /** How many of `words`, counted with repeats, occur in `pool`. */
  function CountIn(words: seq<string>, pool: seq<string>): (n: nat)
    ensures n <= |words|
  {
    if words == [] then 0 else CountIn(words[..|words| - 1], pool) + (if words[|words| - 1] in pool then 1 else 0)
  }

  /**
    The relevance of an entry to an already lower-cased query: 10 if the query
    is in the question, 2 per query word among the question's words, 5 if the
    query is in the answer, 1 per query word equal to a tag.
   */
  function Relevance(query: string, e: FaqEntry): (score: int)
    ensures 0 <= score <= 15 + 3 * |Split(query)|
  {
    (if Contains(Lower(e.question), query) then 10 else 0)
    + 2 * CountIn(Split(query), Split(Lower(e.question)))
    + (if Contains(Lower(e.answer), query) then 5 else 0)
    + CountIn(Split(query), LowerAll(e.tags))
  }

  /** `_calculate_relevance`, with its two counting loops. */
  method CalculateRelevance(query: string, e: FaqEntry) returns (score: int)
    ensures score == Relevance(query, e)
    ensures score >= 0
  {
    score := 0;
    if Contains(Lower(e.question), query) {
      score := score + 10;
    }
    var queryWords := Split(query);
    var questionWords := Split(Lower(e.question));
    ghost var base := score;
    for i := 0 to |queryWords|
      invariant score == base + 2 * CountIn(queryWords[..i], questionWords)
    {
      assert queryWords[..i + 1][..i] == queryWords[..i];
      if queryWords[i] in questionWords {
        score := score + 2;
      }
    }
    assert queryWords[..|queryWords|] == queryWords;
    if Contains(Lower(e.answer), query) {
      score := score + 5;
    }
    var tagsLower := LowerAll(e.tags);
    base := score;
    for i := 0 to |queryWords|
      invariant score == base + CountIn(queryWords[..i], tagsLower)
    {
      assert queryWords[..i + 1][..i] == queryWords[..i];
      if queryWords[i] in tagsLower {
        score := score + 1;
      }
    }
  }

  function ResultOf(query: string, e: FaqEntry): FaqResult {
    FaqResult(e.question, e.answer, e.category, e.tags, Relevance(query, e))
  }

  /** The matching entries of one category, in table order. */
  function SectionHits(query: string, es: seq<FaqEntry>): seq<FaqResult> {
    if es == [] then []
    else SectionHits(query, es[..|es| - 1]) + (if Matches(query, es[|es| - 1]) then [ResultOf(query, es[|es| - 1])] else [])
  }

  /** The matching entries of the searched categories, category by category. */
  function Hits(query: string, db: seq<Section>, cats: seq<string>): seq<FaqResult> {
    if cats == [] then [] else Hits(query, db, cats[..|cats| - 1]) + SectionHits(query, Lookup(db, cats[|cats| - 1]))
  }

  lemma {:induction false} SectionHitsSound(query: string, es: seq<FaqEntry>, x: FaqResult) returns (e: FaqEntry)
    requires x in SectionHits(query, es)
    ensures e in es && Matches(query, e) && x == ResultOf(query, e)
    decreases |es|
  {
    var init := es[..|es| - 1];
    assert es == init + [es[|es| - 1]];
    if x in SectionHits(query, init) {
      e := SectionHitsSound(query, init, x);
    } else {
      e := es[|es| - 1];
    }
  }

  lemma {:induction false} SectionHitsComplete(query: string, es: seq<FaqEntry>, e: FaqEntry)
    requires e in es && Matches(query, e)
    ensures ResultOf(query, e) in SectionHits(query, es)
    decreases |es|
  {
    var init := es[..|es| - 1];
    assert es == init + [es[|es| - 1]];
    if e != es[|es| - 1] {
      SectionHitsComplete(query, init, e);
    }
  }

  /** `x` is the result for a matching entry of one of the categories `cats`. */
  ghost predicate IsHit(query: string, db: seq<Section>, cats: seq<string>, x: FaqResult) {
    exists c, e :: c in cats && e in Lookup(db, c) && Matches(query, e) && x == ResultOf(query, e)
  }

  /** Every result comes from a matching entry of a searched category. */
  lemma {:induction false} HitsSound(query: string, db: seq<Section>, cats: seq<string>, x: FaqResult)
    returns (c: string, e: FaqEntry)
    requires x in Hits(query, db, cats)
    ensures c in cats && e in Lookup(db, c) && Matches(query, e) && x == ResultOf(query, e)
    decreases |cats|
  {
    var init := cats[..|cats| - 1];
    c := cats[|cats| - 1];
    assert cats == init + [c];
    if x in Hits(query, db, init) {
      c, e := HitsSound(query, db, init, x);
    } else {
      e := SectionHitsSound(query, Lookup(db, c), x);
    }
  }

  /** Every matching entry of a searched category is a result. */
  lemma {:induction false} HitsComplete(query: string, db: seq<Section>, cats: seq<string>, c: string, e: FaqEntry)
    requires c in cats && e in Lookup(db, c) && Matches(query, e)
    ensures ResultOf(query, e) in Hits(query, db, cats)
    decreases |cats|
  {
    var init := cats[..|cats| - 1];
    assert cats == init + [cats[|cats| - 1]];
    if c == cats[|cats| - 1] {
      SectionHitsComplete(query, Lookup(db, c), e);
    } else {
      HitsComplete(query, db, init, c, e);
    }
  }

  function Score(r: FaqResult): int { r.relevanceScore }

  /** `results.sort(key=relevance_score, reverse=True)` followed by `results[:max_results]`. */
  function Ranked(hits: seq<FaqResult>, maxResults: int): seq<FaqResult> {
    SliceTo(SortBy(hits, Score, Descending), maxResults)
  }

  /** The ranked list is ordered by non-increasing score, keeps only hits, and holds at most `maxResults` of them. */
  lemma RankedSpec(hits: seq<FaqResult>, maxResults: int)
    ensures forall i, j :: 0 <= i < j < |Ranked(hits, maxResults)| ==>
      Ranked(hits, maxResults)[i].relevanceScore >= Ranked(hits, maxResults)[j].relevanceScore
    ensures forall x :: x in Ranked(hits, maxResults) ==> x in hits
    ensures |Ranked(hits, maxResults)| == if maxResults >= 0 then Min(maxResults, |hits|) else Max(|hits| + maxResults, 0)
  {
    DescendingIsTotalOrder();
    var s := SortBy(hits, Score, Descending);
    SortBySorted(hits, Score, Descending);
    SortByPermutes(hits, Score, Descending);
    var k := Ranked(hits, maxResults);
    assert forall i :: 0 <= i < |k| ==> k[i] == s[i];
    forall x | x in k ensures x in hits {
      assert x in multiset(s);
    }
  }

  /**
    The cut keeps the best: the ranked results are hits, each at most as often
    as it occurs, and no hit left out scores above a kept one.
   */
  lemma RankedKeepsBest(hits: seq<FaqResult>, maxResults: int)
    ensures multiset(Ranked(hits, maxResults)) <= multiset(hits)
    ensures forall x, y :: x in multiset(hits) - multiset(Ranked(hits, maxResults)) && y in Ranked(hits, maxResults) ==>
      x.relevanceScore <= y.relevanceScore
  {
    DescendingIsTotalOrder();
    var s := SortBy(hits, Score, Descending);
    SortBySorted(hits, Score, Descending);
    SortByPermutes(hits, Score, Descending);
    var k := Ranked(hits, maxResults);
    var rest := s[|k|..];
    assert s == k + rest;
    assert multiset(hits) - multiset(k) == multiset(rest);
    PrefixScoresFirst(s, |k|);
  }

  /** In a list sorted by non-increasing score, everything after position `n` scores at most what comes before it. */
  lemma PrefixScoresFirst(s: seq<FaqResult>, n: nat)
    requires n <= |s| && Sorted(s, Score, Descending)
    ensures forall x, y :: x in s[n..] && y in s[..n] ==> x.relevanceScore <= y.relevanceScore
  {
    forall x, y | x in s[n..] && y in s[..n] ensures x.relevanceScore <= y.relevanceScore {
      var j :| 0 <= j < |s| - n && s[n..][j] == x;
      var i :| 0 <= i < n && s[..n][i] == y;
      assert Descending(Score(s[i]), Score(s[n + j]));
    }
  }

  /** The reply of `search_faq` when nothing raises. */
  function Reply(query: string, results: seq<FaqResult>): SearchReply {
    if results != [] then
      SearchReply(true, query, |results|, results,
                  "Found " + NatToString(|results|) + " relevant FAQ entries for your question.")
    else SearchReply(true, query, 0, [], NoResultMessage)
  }

  /** The matches of one category, appended in table order as the inner loop does. */
  method CollectSection(query: string, es: seq<FaqEntry>, acc: seq<FaqResult>) returns (r: seq<FaqResult>)
    ensures r == acc + SectionHits(query, es)
  {
    r := acc;
    for i := 0 to |es|
      invariant r == acc + SectionHits(query, es[..i])
    {
      assert es[..i + 1][..i] == es[..i];
      if Matches(query, es[i]) {
        var score := CalculateRelevance(query, es[i]);
        r := r + [FaqResult(es[i].question, es[i].answer, es[i].category, es[i].tags, score)];
      }
    }
    assert es[..|es|] == es;
  }

  /** The nested loops of `search_faq` over the selected categories and their entries. */
  method CollectHits(query: string, db: seq<Section>, cats: seq<string>) returns (results: seq<FaqResult>)
    ensures results == Hits(query, db, cats)
  {
    results := [];
    for c := 0 to |cats|
      invariant results == Hits(query, db, cats[..c])
    {
      assert cats[..c + 1][..c] == cats[..c];
      results := CollectSection(query, Lookup(db, cats[c]), results);
    }
    assert cats[..|cats|] == cats;
  }

  /**
    `search_faq`: a reply is always a success; its results are the matching
    entries of the selected categories, best score first (ties in table
    order), at most `max_results` of them, and the count is their number.
   */
  method SearchFaq(db: seq<Section>, rawQuery: string, category: Option<string>, maxResults: Option<int>)
    returns (r: SearchReply)
    requires UniqueNames(db)
    ensures var query := Lower(rawQuery);
      r == Reply(query, Ranked(Hits(query, db, CategoriesToSearch(db, category.GetOr("all"))), maxResults.GetOr(DefaultMaxResults)))
    ensures r.success && r.resultsCount == |r.results|
    ensures forall i, j :: 0 <= i < j < |r.results| ==> r.results[i].relevanceScore >= r.results[j].relevanceScore
    ensures forall x :: x in r.results ==> IsHit(Lower(rawQuery), db, CategoriesToSearch(db, category.GetOr("all")), x)
  {
    var query := Lower(rawQuery);
    var cats := CategoriesToSearch(db, category.GetOr("all"));
    var results := CollectHits(query, db, cats);
    DescendingIsTotalOrder();
    var sorted := Sort(results, Score, Descending);
    var kept := SliceTo(sorted, maxResults.GetOr(DefaultMaxResults));
    r := Reply(query, kept);
    RankedSpec(results, maxResults.GetOr(DefaultMaxResults));
    forall x | x in r.results
      ensures IsHit(query, db, cats, x)
    {
      var c, e := HitsSound(query, db, cats, x);
    }
  }
}
