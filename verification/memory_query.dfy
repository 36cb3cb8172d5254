/**
 The memory branch of RetrievalStore.query (app/storage.py, lines 193-202).

 `tokens` stands for `_memory_tokens`, a pure function from a text to a set of
 words; nothing is assumed about it.
 */
module MemoryQuery {
  import opened MemoryStore

  datatype Hit = Hit(text: string, index: nat, score: nat)

  function Score(query: string, text: string, tokens: string -> set<string>): nat {
    |tokens(query) * tokens(text)|
  }

  function Scores(docs: seq<Doc>, query: string, tokens: string -> set<string>): (r: seq<nat>)
    ensures |r| == |docs|
    ensures forall i :: 0 <= i < |docs| ==> r[i] == Score(query, docs[i].text, tokens)
  {
    seq(|docs|, i requires 0 <= i < |docs| => Score(query, docs[i].text, tokens))
  }

  /** Position `i` goes before position `j`: a higher score, or the same score and
      an older document. */
  predicate Before(scores: seq<nat>, i: nat, j: nat)
    requires i < |scores| && j < |scores|
  {
    scores[i] > scores[j] || (scores[i] == scores[j] && i < j)
  }

  ghost predicate Positions(scores: seq<nat>, order: seq<nat>) {
    forall a :: 0 <= a < |order| ==> order[a] < |scores|
  }

  ghost predicate Ranked(scores: seq<nat>, order: seq<nat>) {
    && Positions(scores, order)
    && forall a, b :: 0 <= a < b < |order| ==> Before(scores, order[a], order[b])
  }

  function Insert(scores: seq<nat>, i: nat, order: seq<nat>): (r: seq<nat>)
    requires i < |scores|
    requires forall a :: 0 <= a < |order| ==> order[a] < |scores|
    ensures |r| == |order| + 1
    ensures forall a :: 0 <= a < |r| ==> r[a] < |scores|
  {
    if order == [] || Before(scores, i, order[0]) then [i] + order
    else [order[0]] + Insert(scores, i, order[1..])
  }

  /** `sorted(..., key=score, reverse=True)` as a sequence of positions. */
  function Order(scores: seq<nat>, n: nat): (r: seq<nat>)
    requires n <= |scores|
    ensures |r| == n
    ensures forall a :: 0 <= a < |r| ==> r[a] < |scores|
  {
    if n == 0 then [] else Insert(scores, n - 1, Order(scores, n - 1))
  }

  /** The comprehension over `enumerate(sorted(...))`. */
  function Hits(docs: seq<Doc>, scores: seq<nat>, order: seq<nat>, rank: nat): seq<Hit>
    requires |scores| == |docs| && forall a :: 0 <= a < |order| ==> order[a] < |scores|
    decreases order
  {
    if order == [] then [] else
      (if scores[order[0]] > 0 then [Hit(docs[order[0]].text, rank, scores[order[0]])] else [])
      + Hits(docs, scores, order[1..], rank + 1)
  }

  /** `hits[:top_k]`; a negative bound counts from the end. */
  function SliceTo<T>(s: seq<T>, k: int): seq<T> {
    if k >= |s| then s else if k >= 0 then s[..k] else if |s| + k > 0 then s[..|s| + k] else []
  }

  function Query(docs: seq<Doc>, query: string, tokens: string -> set<string>, topK: int): seq<Hit> {
    var scores := Scores(docs, query, tokens);
    SliceTo(Hits(docs, scores, Order(scores, |scores|), 0), topK)
  }

  // ---------- the sort is the stable descending ranking ----------

  lemma PrependRanks(scores: seq<nat>, i: nat, order: seq<nat>)
    requires i < |scores| && Ranked(scores, order)
    requires forall a :: 0 <= a < |order| ==> Before(scores, i, order[a])
    ensures Ranked(scores, [i] + order)
  {
    var r := [i] + order;
    forall a, b | 0 <= a < b < |r| ensures Before(scores, r[a], r[b]) {
      assert r[b] == order[b - 1];
      if a > 0 { assert r[a] == order[a - 1]; }
    }
  }

  lemma {:induction false} InsertRanks(scores: seq<nat>, i: nat, order: seq<nat>)
    requires i < |scores| && Ranked(scores, order) && i !in order
    ensures Ranked(scores, Insert(scores, i, order))
    ensures forall p: nat :: p in Insert(scores, i, order) <==> p == i || p in order
  {
    if order == [] || Before(scores, i, order[0]) {
      forall a | 0 <= a < |order| ensures Before(scores, i, order[a]) {
        if a > 0 { assert Before(scores, order[0], order[a]); }
      }
      PrependRanks(scores, i, order);
    } else {
      var rest := order[1..];
      assert order == [order[0]] + rest;
      assert forall a :: 0 <= a < |rest| ==> rest[a] == order[a + 1];
      InsertRanks(scores, i, rest);
      var tail := Insert(scores, i, rest);
      forall b | 0 <= b < |tail| ensures Before(scores, order[0], tail[b]) {
        assert tail[b] in tail;
        assert order[0] in order;
      }
      PrependRanks(scores, order[0], tail);
    }
  }

  lemma {:induction false} OrderRanks(scores: seq<nat>, n: nat)
    requires n <= |scores|
    ensures Ranked(scores, Order(scores, n))
    ensures forall p: nat :: p in Order(scores, n) <==> p < n
  {
    if n > 0 {
      var before := Order(scores, n - 1);
      OrderRanks(scores, n - 1);
      assert n - 1 !in before;
      InsertRanks(scores, n - 1, before);
      assert Order(scores, n) == Insert(scores, n - 1, before);
    }
  }

  // ---------- positive scores are a prefix, so the index is the rank ----------

  /** How many ranked positions score at all. */
  function Positive(scores: seq<nat>, order: seq<nat>): (n: nat)
    requires forall a :: 0 <= a < |order| ==> order[a] < |scores|
    ensures n <= |order|
  {
    if order == [] || scores[order[0]] == 0 then 0 else 1 + Positive(scores, order[1..])
  }

  lemma {:induction false} HitsOfZeros(docs: seq<Doc>, scores: seq<nat>, order: seq<nat>, rank: nat)
    requires |scores| == |docs| && Positions(scores, order)
    requires forall a :: 0 <= a < |order| ==> scores[order[a]] == 0
    ensures Hits(docs, scores, order, rank) == []
    decreases order
  {
    if order != [] { HitsOfZeros(docs, scores, order[1..], rank + 1); }
  }

  lemma {:induction false} HitsFollowTheRanking(docs: seq<Doc>, scores: seq<nat>, order: seq<nat>, rank: nat)
    requires |scores| == |docs| && Ranked(scores, order)
    ensures var hits := Hits(docs, scores, order, rank);
      && |hits| == Positive(scores, order)
      && (forall i :: 0 <= i < |hits| ==>
            hits[i] == Hit(docs[order[i]].text, rank + i, scores[order[i]]) && hits[i].score > 0)
      && (forall i :: |hits| <= i < |order| ==> scores[order[i]] == 0)
    decreases order
  {
    if order != [] {
      var rest := order[1..];
      assert forall a :: 0 <= a < |rest| ==> rest[a] == order[a + 1];
      if scores[order[0]] == 0 {
        forall a | 0 <= a < |order| ensures scores[order[a]] == 0 {
          if a > 0 { assert Before(scores, order[0], order[a]); }
        }
        HitsOfZeros(docs, scores, order, rank);
      } else {
        HitsFollowTheRanking(docs, scores, rest, rank + 1);
        var tail := Hits(docs, scores, rest, rank + 1);
        var hits := Hits(docs, scores, order, rank);
        assert hits == [Hit(docs[order[0]].text, rank, scores[order[0]])] + tail;
        forall i | |hits| <= i < |order| ensures scores[order[i]] == 0 {
          assert rest[i - 1] == order[i];
        }
      }
    }
  }

  /** `at` lists the store positions of the hits, in the order returned. */
  ghost predicate IsTopOfRanking(docs: seq<Doc>, scores: seq<nat>, hits: seq<Hit>, k: nat, at: seq<nat>)
    requires |scores| == |docs|
  {
    && |at| == |hits| <= k
    && Ranked(scores, at)
    && (forall i :: 0 <= i < |hits| ==> hits[i] == Hit(docs[at[i]].text, i, scores[at[i]]) && hits[i].score > 0)
    && (forall d :: 0 <= d < |docs| && d !in at && scores[d] > 0 ==>
          |hits| == k && forall i :: 0 <= i < |at| ==> Before(scores, at[i], d))
  }

  lemma LeftOutIsBehind(scores: seq<nat>, order: seq<nat>, n: nat, d: nat) returns (a: nat)
    requires Ranked(scores, order) && n <= |order| && d in order
    ensures a < |order| && order[a] == d
    ensures a < n ==> d in order[..n]
    ensures a >= n ==> forall i :: 0 <= i < n ==> Before(scores, order[i], d)
  {
    a :| 0 <= a < |order| && order[a] == d;
    if a < n { assert order[..n][a] == d; }
  }

  lemma TopOfOrder(docs: seq<Doc>, scores: seq<nat>, order: seq<nat>, k: nat) returns (at: seq<nat>)
    requires |scores| == |docs| && Ranked(scores, order)
    requires forall p: nat :: p in order <==> p < |docs|
    ensures IsTopOfRanking(docs, scores, SliceTo(Hits(docs, scores, order, 0), k), k, at)
  {
    HitsFollowTheRanking(docs, scores, order, 0);
    var hits := SliceTo(Hits(docs, scores, order, 0), k);
    at := order[..|hits|];
    forall d | 0 <= d < |docs| && d !in at && scores[d] > 0
      ensures |hits| == k && forall i :: 0 <= i < |at| ==> Before(scores, at[i], d)
    {
      var a := LeftOutIsBehind(scores, order, |hits|, d);
    }
  }

  /**
   A query returns the first `k` of the stable descending ranking: every hit
   scores, ties keep store order, `index` is the rank, and a scoring document is
   left out only when `k` others go before it.
   */
  lemma QueryReturnsTheTop(docs: seq<Doc>, query: string, tokens: string -> set<string>, k: nat) returns (at: seq<nat>)
    ensures IsTopOfRanking(docs, Scores(docs, query, tokens), Query(docs, query, tokens, k), k, at)
  {
    var scores := Scores(docs, query, tokens);
    OrderRanks(scores, |scores|);
    at := TopOfOrder(docs, scores, Order(scores, |scores|), k);
  }

  // ---------- the same in terms of words ----------

  /** `n` words, and no more, are in both sets. */
  ghost predicate MostShared(n: nat, a: set<string>, b: set<string>) {
    && (exists c: set<string> :: c <= a && c <= b && |c| == n)
    && (forall c: set<string> :: c <= a && c <= b ==> |c| <= n)
  }

  lemma SubsetIsSmaller(c: set<string>, d: set<string>)
    requires c <= d
    ensures |c| <= |d|
  {
    assert d == c + (d - c);
  }

  /** The score is the number of words that query and document share. */
  lemma ScoreIsMostShared(query: string, text: string, tokens: string -> set<string>)
    ensures MostShared(Score(query, text, tokens), tokens(query), tokens(text))
  {
    var both := tokens(query) * tokens(text);
    assert both <= tokens(query) && both <= tokens(text);
    forall c: set<string> | c <= tokens(query) && c <= tokens(text) ensures |c| <= Score(query, text, tokens) {
      SubsetIsSmaller(c, both);
    }
  }

  ghost predicate SharesWord(query: string, text: string, tokens: string -> set<string>) {
    exists word :: word in tokens(query) && word in tokens(text)
  }

  lemma ScoresIffShares(query: string, text: string, tokens: string -> set<string>)
    ensures Score(query, text, tokens) > 0 <==> SharesWord(query, text, tokens)
  {
    var both := tokens(query) * tokens(text);
    if word :| word in tokens(query) && word in tokens(text) { assert word in both; }
    if both != {} {
      var word :| word in both;
      assert word in tokens(query) && word in tokens(text);
    }
  }

  /** Hit `i` is the document at `at[i]`, which shares a word with the query, with the
      number of words that it shares. */
  ghost predicate IsHit(h: Hit, i: nat, d: Doc, query: string, tokens: string -> set<string>) {
    && h.text == d.text && h.index == i && h.score >= 1
    && SharesWord(query, d.text, tokens) && MostShared(h.score, tokens(query), tokens(d.text))
  }

  lemma SharedIsUnique(query: string, text: string, tokens: string -> set<string>, n: nat)
    requires MostShared(n, tokens(query), tokens(text))
    ensures n == Score(query, text, tokens)
  {
    ScoreIsMostShared(query, text, tokens);
    var c: set<string> :| c <= tokens(query) && c <= tokens(text) && |c| == n;
    var d: set<string> :| d <= tokens(query) && d <= tokens(text) && |d| == Score(query, text, tokens);
  }

  /**
   What a query answers, in terms of the words of the documents: at most `k` hits, each a
   document that shares a word with the query; more shared words first, and the older
   document first among equals; and a document that shares a word is left out only if
   there are `k` hits, none of which shares fewer, or as many and is newer.
   */
  lemma QueryIs(docs: seq<Doc>, query: string, tokens: string -> set<string>, k: nat) returns (at: seq<nat>)
    ensures var hits := Query(docs, query, tokens, k);
      && |at| == |hits| <= k
      && (forall i :: 0 <= i < |at| ==> at[i] < |docs| && IsHit(hits[i], i, docs[at[i]], query, tokens))
      && (forall i, j :: 0 <= i < j < |at| ==>
            hits[i].score > hits[j].score || (hits[i].score == hits[j].score && at[i] < at[j]))
      && (forall d, n :: 0 <= d < |docs| && d !in at && SharesWord(query, docs[d].text, tokens)
                         && MostShared(n, tokens(query), tokens(docs[d].text)) ==>
            |hits| == k && forall i :: 0 <= i < k ==> hits[i].score > n || (hits[i].score == n && at[i] < d))
  {
    at := QueryReturnsTheTop(docs, query, tokens, k);
    var hits, scores := Query(docs, query, tokens, k), Scores(docs, query, tokens);
    forall i | 0 <= i < |at| ensures at[i] < |docs| && IsHit(hits[i], i, docs[at[i]], query, tokens) {
      ScoreIsMostShared(query, docs[at[i]].text, tokens);
      ScoresIffShares(query, docs[at[i]].text, tokens);
    }
    forall i, j | 0 <= i < j < |at|
      ensures hits[i].score > hits[j].score || (hits[i].score == hits[j].score && at[i] < at[j])
    {
      assert Before(scores, at[i], at[j]);
    }
    forall d, n | 0 <= d < |docs| && d !in at && SharesWord(query, docs[d].text, tokens)
                  && MostShared(n, tokens(query), tokens(docs[d].text))
      ensures |hits| == k && forall i :: 0 <= i < k ==> hits[i].score > n || (hits[i].score == n && at[i] < d)
    {
      ScoresIffShares(query, docs[d].text, tokens);
      SharedIsUnique(query, docs[d].text, tokens, n);
    }
  }

  /** A negative bound drops as many hits from the end of the full answer. */
  lemma BoundCutsTheAnswer(docs: seq<Doc>, query: string, tokens: string -> set<string>, k: int)
    ensures var all := Query(docs, query, tokens, |docs|);
      var n := if k >= |all| then |all| else if k >= 0 then k else if |all| + k >= 0 then |all| + k else 0;
      Query(docs, query, tokens, k) == all[..n]
  {
    var scores := Scores(docs, query, tokens);
    OrderRanks(scores, |scores|);
    HitsFollowTheRanking(docs, scores, Order(scores, |scores|), 0);
  }

  // ---------- any stable sort ----------

  lemma FirstIsBest(scores: seq<nat>, order: seq<nat>, p: nat)
    requires Ranked(scores, order) && p in order
    ensures p < |scores| && (p == order[0] || Before(scores, order[0], p))
  {
    var i :| 0 <= i < |order| && order[i] == p;
    if i > 0 { assert Before(scores, order[0], order[i]); }
  }

  lemma HeadsAgree(scores: seq<nat>, a: seq<nat>, b: seq<nat>)
    requires Ranked(scores, a) && Ranked(scores, b)
    requires a != [] && b != [] && a[0] in b && b[0] in a
    ensures a[0] == b[0]
  {
    FirstIsBest(scores, a, b[0]);
    FirstIsBest(scores, b, a[0]);
  }

  lemma RestHasTheSame(scores: seq<nat>, a: seq<nat>, b: seq<nat>)
    requires Ranked(scores, a) && a != [] && b != [] && a[0] == b[0]
    requires forall p: nat :: p in a ==> p in b
    ensures forall p: nat :: p in a[1..] ==> p in b[1..]
  {
    forall p | p in a[1..] ensures p in b[1..] {
      var i :| 0 <= i < |a[1..]| && a[1..][i] == p;
      assert a[i + 1] == p && Before(scores, a[0], p);
      assert p in b;
      var j :| 0 <= j < |b| && b[j] == p;
      assert j > 0;
      assert b[1..][j - 1] == p;
    }
  }

  lemma {:induction false} RankingIsUnique(scores: seq<nat>, a: seq<nat>, b: seq<nat>)
    requires Ranked(scores, a) && Ranked(scores, b)
    requires forall p: nat :: p in a <==> p in b
    ensures a == b
  {
    if b != [] { assert b[0] in a; }
    if a != [] {
      assert a[0] in b;
      HeadsAgree(scores, a, b);
      RestHasTheSame(scores, a, b);
      RestHasTheSame(scores, b, a);
      RankingIsUnique(scores, a[1..], b[1..]);
    }
  }

  /** Any stable descending sort gives the answers of `Query`. */
  lemma AnyStableSortAgrees(docs: seq<Doc>, query: string, tokens: string -> set<string>, k: int, order: seq<nat>)
    requires Ranked(Scores(docs, query, tokens), order)
    requires forall p: nat :: p in order <==> p < |docs|
    ensures SliceTo(Hits(docs, Scores(docs, query, tokens), order, 0), k) == Query(docs, query, tokens, k)
  {
    var scores := Scores(docs, query, tokens);
    OrderRanks(scores, |scores|);
    RankingIsUnique(scores, order, Order(scores, |scores|));
  }

  /** A larger bound only extends the list. */
  lemma LargerBoundExtends(docs: seq<Doc>, query: string, tokens: string -> set<string>, k: nat, m: nat)
    requires k <= m
    ensures Query(docs, query, tokens, k) <= Query(docs, query, tokens, m)
    ensures Query(docs, query, tokens, k) == SliceTo(Query(docs, query, tokens, m), k)
  {}
}
