/** The retrieval arithmetic of `services/vectorStore.ts`: cosine similarity between a query
    embedding and a stored one, the folder scope, the descending sort by score, the
    relevance floor and the result cut-off. `Math.sqrt` is a parameter known only to be
    positive on positive arguments. */
module Retrieval {
  import opened Types
  import opened Text
  import opened Seqs

  /** `Math.sqrt`, as far as the ranking depends on it. */
  type Root = f: real -> real | forall x: real :: 0.0 < x ==> 0.0 < f(x) witness (x: real) => x

  /** A similarity score. `NaN` is what JavaScript computes when the stored embedding is
      shorter than the query (`vecB[i]` is `undefined`), which includes an empty one. */
  datatype Score = Num(value: real) | NaN

  /** The order of the descending sort: higher numbers first, `NaN` after every number. */
  predicate RanksAtLeast(a: Score, b: Score) {
    match a
    case NaN => b.NaN?
    case Num(x) => b.NaN? || x >= b.value
  }

  /** Only scores strictly above this floor are returned. */
  const RELEVANCE_FLOOR: real := 0.35

  predicate Relevant(s: Score) {
    s.Num? && s.value > RELEVANCE_FLOOR
  }

  /** The dot product of the first `n` coordinates. */
  function Dot(a: seq<real>, b: seq<real>, n: nat): real
    requires n <= |a| && n <= |b|
  {
    if n == 0 then 0.0 else Dot(a, b, n - 1) + a[n - 1] * b[n - 1]
  }

  /** The squared norm of the first `n` coordinates, never negative. */
  function SumSquares(a: seq<real>, n: nat): (r: real)
    requires n <= |a|
    ensures r >= 0.0
  {
    if n == 0 then 0.0
    else
      var sq := a[n - 1] * a[n - 1];
      assert sq >= 0.0;
      SumSquares(a, n - 1) + sq
  }

  /** `Math.sqrt(normA) * Math.sqrt(normB)` */
  function NormProduct(root: Root, na: real, nb: real): (p: real)
    requires na > 0.0 && nb > 0.0
    ensures p > 0.0
  {
    root(na) * root(nb)
  }

  /** `cosineSimilarity(vecA, vecB)`: the loop runs over the query's coordinates, so a
      longer stored vector is truncated and a shorter one poisons the sums with NaN; a zero
      norm yields 0, which is tested before the NaN norm of a short vector can matter. */
  function Cosine(a: seq<real>, b: seq<real>, root: Root): Score {
    var na := SumSquares(a, |a|);
    if na == 0.0 then Num(0.0)
    else if |b| < |a| then NaN
    else
      var nb := SumSquares(b, |a|);
      if nb == 0.0 then Num(0.0)
      else Num(Dot(a, b, |a|) / NormProduct(root, na, nb))
  }

  lemma {:induction false} DotSymmetric(a: seq<real>, b: seq<real>, n: nat)
    requires n <= |a| && n <= |b|
    ensures Dot(a, b, n) == Dot(b, a, n)
  {
    if n > 0 {
      DotSymmetric(a, b, n - 1);
    }
  }

  lemma {:induction false} DotSelf(a: seq<real>, n: nat)
    requires n <= |a|
    ensures Dot(a, a, n) == SumSquares(a, n)
  {
    if n > 0 {
      DotSelf(a, n - 1);
    }
  }

  /** Similarity is symmetric between vectors of the same dimension. */
  lemma CosineSymmetric(a: seq<real>, b: seq<real>, root: Root)
    requires |a| == |b|
    ensures Cosine(a, b, root) == Cosine(b, a, root)
  {
    DotSymmetric(a, b, |a|);
  }

  lemma RealQuotientOne(x: real)
    requires x != 0.0
    ensures x / x == 1.0
  {
  }

  /** A non-zero vector is fully similar to itself, given a square root that squares back. */
  lemma CosineSelf(a: seq<real>, root: Root)
    requires SumSquares(a, |a|) != 0.0
    requires root(SumSquares(a, |a|)) * root(SumSquares(a, |a|)) == SumSquares(a, |a|)
    ensures Cosine(a, a, root) == Num(1.0)
  {
    DotSelf(a, |a|);
    var n := SumSquares(a, |a|);
    assert NormProduct(root, n, n) == n;
    assert Cosine(a, a, root) == Num(Dot(a, a, |a|) / NormProduct(root, n, n));
    RealQuotientOne(n);
  }

  /** A stored vector shorter than a non-zero query scores NaN; against a zero query every
      vector scores 0. Either way a short vector is never relevant. */
  lemma CosineShortStored(a: seq<real>, b: seq<real>, root: Root)
    requires |b| < |a|
    ensures Cosine(a, b, root) == if SumSquares(a, |a|) == 0.0 then Num(0.0) else NaN
    ensures !Relevant(Cosine(a, b, root))
  {
  }

  /** A document paired with its score. */
  datatype Scored = Scored(doc: VectorDocument, score: Score)

  /** The score of one candidate: -1 without an embedding, the cosine otherwise. */
  function ScoreOf(q: seq<real>, d: VectorDocument, root: Root): Score {
    match d.embedding
    case None => Num(-1.0)
    case Some(e) => Cosine(q, e, root)
  }

  /** `candidateDocs.map(doc => ({ doc, score }))` */
  function ScoreAll(q: seq<real>, docs: seq<VectorDocument>, root: Root): (r: seq<Scored>)
    ensures |r| == |docs|
    ensures forall i :: 0 <= i < |docs| ==> r[i] == Scored(docs[i], ScoreOf(q, docs[i], root))
  {
    if docs == [] then []
    else ScoreAll(q, docs[..|docs| - 1], root) + [Scored(docs[|docs| - 1], ScoreOf(q, docs[|docs| - 1], root))]
  }

  /** Every pair carries its own document's score. */
  predicate Honest(s: seq<Scored>, q: seq<real>, root: Root) {
    forall i :: 0 <= i < |s| ==> s[i].score == ScoreOf(q, s[i].doc, root)
  }

  /** Sorted by descending score. */
  predicate Ranked(s: seq<Scored>) {
    forall i, j :: 0 <= i < j < |s| ==> RanksAtLeast(s[i].score, s[j].score)
  }

  /** Inserts `x` before the first element it ranks at least as high as, so that earlier
      elements stay ahead of later ones they tie with. */
  function Insert(x: Scored, s: seq<Scored>): seq<Scored> {
    if s == [] || RanksAtLeast(x.score, s[0].score) then [x] + s else [s[0]] + Insert(x, s[1..])
  }

  /** `scoredDocs.sort((a, b) => b.score - a.score)`, as a stable sort. */
  function SortByScore(s: seq<Scored>): seq<Scored> {
    if s == [] then [] else Insert(s[0], SortByScore(s[1..]))
  }

  lemma {:induction false} InsertElements(x: Scored, s: seq<Scored>)
    ensures multiset(Insert(x, s)) == multiset(s) + multiset{x}
  {
    if s != [] && !RanksAtLeast(x.score, s[0].score) {
      InsertElements(x, s[1..]);
      assert s == [s[0]] + s[1..];
    }
  }

  /** The head of a ranked list ranks at least as high as anything inserted behind it. */
  lemma HeadRanksAtLeast(x: Scored, s: seq<Scored>, y: Scored)
    requires Ranked(s) && |s| > 0 && !RanksAtLeast(x.score, s[0].score)
    requires y in multiset(Insert(x, s[1..]))
    ensures RanksAtLeast(s[0].score, y.score)
  {
    InsertElements(x, s[1..]);
    if y != x {
      assert y in multiset(s[1..]);
      var j :| 0 <= j < |s[1..]| && s[1..][j] == y;
      assert s[j + 1] == y;
    }
  }

  lemma {:induction false} InsertRanked(x: Scored, s: seq<Scored>)
    requires Ranked(s)
    ensures Ranked(Insert(x, s))
  {
    if s == [] || RanksAtLeast(x.score, s[0].score) {
      var r := [x] + s;
      forall i, j | 0 <= i < j < |r| ensures RanksAtLeast(r[i].score, r[j].score) {
        if i == 0 && j > 1 {
          assert RanksAtLeast(s[0].score, s[j - 1].score);
        }
      }
    } else {
      var tail := s[1..];
      assert Ranked(tail);
      InsertRanked(x, tail);
      var t := Insert(x, tail);
      forall k | 0 <= k < |t| ensures RanksAtLeast(s[0].score, t[k].score) {
        HeadRanksAtLeast(x, s, t[k]);
      }
    }
  }

  /** The sort leaves the list ranked and holding the same pairs. */
  lemma {:induction false} SortByScoreCorrect(s: seq<Scored>)
    ensures Ranked(SortByScore(s))
    ensures multiset(SortByScore(s)) == multiset(s)
  {
    if s != [] {
      SortByScoreCorrect(s[1..]);
      InsertRanked(s[0], SortByScore(s[1..]));
      InsertElements(s[0], SortByScore(s[1..]));
      assert s == [s[0]] + s[1..];
    }
  }

  function WithScore(v: Score): Scored -> bool {
    (x: Scored) => x.score == v
  }

  /** Inserting `x` puts it ahead of every element with its score and keeps their order. */
  lemma {:induction false} InsertStable(x: Scored, s: seq<Scored>, v: Score)
    ensures Filter(Insert(x, s), WithScore(v)) == (if x.score == v then [x] else []) + Filter(s, WithScore(v))
  {
    if s == [] || RanksAtLeast(x.score, s[0].score) {
      FilterPrepend(x, s, WithScore(v));
    } else {
      var tail := s[1..];
      var same := WithScore(v);
      var hx, h0 := if x.score == v then [x] else [], if s[0].score == v then [s[0]] else [];
      assert s == [s[0]] + tail;
      assert Insert(x, s) == [s[0]] + Insert(x, tail);
      InsertStable(x, tail, v);
      FilterPrepend(s[0], Insert(x, tail), same);
      FilterPrepend(s[0], tail, same);
      var rest := Filter(tail, same);
      assert Filter(Insert(x, s), same) == h0 + (hx + rest);
      assert Filter(s, same) == h0 + rest;
      // `x` ranks at least as high as anything with its own score, so the two cannot tie.
      assert hx == [] || h0 == [];
      PrependCommute(h0, hx, rest);
    }
  }

  /** The sort is stable: the pairs with any one score come out in their input order. */
  lemma {:induction false} SortByScoreStable(s: seq<Scored>, v: Score)
    ensures Filter(SortByScore(s), WithScore(v)) == Filter(s, WithScore(v))
  {
    if s != [] {
      SortByScoreStable(s[1..], v);
      InsertStable(s[0], SortByScore(s[1..]), v);
      assert s == [s[0]] + s[1..];
      FilterPrepend(s[0], s[1..], WithScore(v));
    }
  }

  predicate IsRelevant(x: Scored) {
    Relevant(x.score)
  }

  /** Filtering a ranked list keeps it ranked. */
  lemma {:induction false} FilterRanked(s: seq<Scored>, p: Scored -> bool)
    requires Ranked(s)
    ensures Ranked(Filter(s, p))
  {
    if s != [] {
      var init, last := s[..|s| - 1], s[|s| - 1];
      assert Ranked(init);
      FilterRanked(init, p);
      var f := Filter(init, p);
      if p(last) {
        var r := f + [last];
        forall i, j | 0 <= i < j < |r| ensures RanksAtLeast(r[i].score, r[j].score) {
          if j == |f| {
            assert r[i] == f[i] && f[i] in f;
            var k :| 0 <= k < |init| && init[k] == r[i];
            assert s[k] == r[i];
          }
        }
      }
    }
  }

  /** The folder test of the category filter. */
  function InFolders(folders: seq<string>): VectorDocument -> bool {
    (d: VectorDocument) => CategoryOf(d) in folders
  }

  /** A document is searched when no folders are given or its category is one of them. */
  predicate InScope(d: VectorDocument, allowed: Option<seq<string>>) {
    allowed.None? || |allowed.value| == 0 || CategoryOf(d) in allowed.value
  }

  /** The documents the search scores. */
  function Candidates(docs: seq<VectorDocument>, allowed: Option<seq<string>>): (c: seq<VectorDocument>)
    ensures forall d :: d in c <==> d in docs && InScope(d, allowed)
  {
    if allowed.Some? && |allowed.value| > 0 then
      var c := Filter(docs, InFolders(allowed.value));
      assert forall d :: d in c ==> InFolders(allowed.value)(d);
      c
    else docs
  }

  /** The relevant candidates, best first. */
  function Ranking(q: seq<real>, docs: seq<VectorDocument>, allowed: Option<seq<string>>, root: Root): seq<Scored> {
    Filter(SortByScore(ScoreAll(q, Candidates(docs, allowed), root)), IsRelevant)
  }

  function DocOf(x: Scored): VectorDocument {
    x.doc
  }

  /** `search(query, limit, allowedCategories)` once the query's embedding `q` is known. */
  function SearchResult(q: seq<real>, docs: seq<VectorDocument>, limit: int,
                        allowed: Option<seq<string>>, root: Root): seq<VectorDocument> {
    if |q| == 0 then [] else Map(SliceTo(Ranking(q, docs, allowed, root), limit), DocOf)
  }

  /** The sorted scores are the candidates' own. */
  lemma SortedScoresHonest(q: seq<real>, c: seq<VectorDocument>, root: Root, sorted: seq<Scored>)
    requires sorted == SortByScore(ScoreAll(q, c, root))
    ensures forall i :: 0 <= i < |sorted| ==> sorted[i].score == ScoreOf(q, sorted[i].doc, root) && sorted[i].doc in c
  {
    var scored := ScoreAll(q, c, root);
    SortByScoreCorrect(scored);
    forall i | 0 <= i < |sorted|
      ensures sorted[i].score == ScoreOf(q, sorted[i].doc, root) && sorted[i].doc in c
    {
      assert sorted[i] in multiset(scored);
      var k :| 0 <= k < |scored| && scored[k] == sorted[i];
    }
  }

  /** Keeping the relevant pairs of honestly scored candidates keeps them honest, in
      scope and relevant. */
  lemma RelevantPartSound(sorted: seq<Scored>, c: seq<VectorDocument>, docs: seq<VectorDocument>,
                          allowed: Option<seq<string>>, q: seq<real>, root: Root)
    requires forall i :: 0 <= i < |sorted| ==> sorted[i].score == ScoreOf(q, sorted[i].doc, root) && sorted[i].doc in c
    requires forall d :: d in c <==> d in docs && InScope(d, allowed)
    ensures var r := Filter(sorted, IsRelevant);
      Honest(r, q, root) &&
      forall i :: 0 <= i < |r| ==> r[i].doc in docs && InScope(r[i].doc, allowed) && Relevant(r[i].score)
  {
    var r := Filter(sorted, IsRelevant);
    forall i | 0 <= i < |r|
      ensures r[i].score == ScoreOf(q, r[i].doc, root) && r[i].doc in docs && InScope(r[i].doc, allowed)
      ensures Relevant(r[i].score)
    {
      assert r[i] in r;
      assert r[i] in sorted && IsRelevant(r[i]);
      var k :| 0 <= k < |sorted| && sorted[k] == r[i];
      assert r[i].doc in c;
    }
  }

  /** Every ranked pair is a relevant in-scope stored document with its own score. */
  lemma RankingSound(q: seq<real>, docs: seq<VectorDocument>, allowed: Option<seq<string>>, root: Root)
    ensures var r := Ranking(q, docs, allowed, root);
      Honest(r, q, root) &&
      forall i :: 0 <= i < |r| ==> r[i].doc in docs && InScope(r[i].doc, allowed) && Relevant(r[i].score)
  {
    var c := Candidates(docs, allowed);
    var sorted := SortByScore(ScoreAll(q, c, root));
    SortedScoresHonest(q, c, root, sorted);
    RelevantPartSound(sorted, c, docs, allowed, q, root);
  }

  /** Every relevant in-scope stored document is ranked. */
  lemma RankingComplete(q: seq<real>, docs: seq<VectorDocument>, allowed: Option<seq<string>>, root: Root)
    ensures forall d :: d in docs && InScope(d, allowed) && Relevant(ScoreOf(q, d, root)) ==>
      Scored(d, ScoreOf(q, d, root)) in Ranking(q, docs, allowed, root)
  {
    var c := Candidates(docs, allowed);
    var scored := ScoreAll(q, c, root);
    var sorted := SortByScore(scored);
    SortByScoreCorrect(scored);
    forall d | d in docs && InScope(d, allowed) && Relevant(ScoreOf(q, d, root))
      ensures Scored(d, ScoreOf(q, d, root)) in Filter(sorted, IsRelevant)
    {
      var m :| 0 <= m < |c| && c[m] == d;
      var x := Scored(d, ScoreOf(q, d, root));
      assert scored[m] == x;
      assert x in multiset(sorted);
      assert IsRelevant(x);
    }
  }

  /** What the ranking is made of: relevant in-scope candidates, honestly scored, best first. */
  lemma RankingFacts(q: seq<real>, docs: seq<VectorDocument>, allowed: Option<seq<string>>, root: Root)
    ensures var r := Ranking(q, docs, allowed, root);
      Ranked(r) && Honest(r, q, root) &&
      (forall i :: 0 <= i < |r| ==> r[i].doc in docs && InScope(r[i].doc, allowed) && Relevant(r[i].score)) &&
      (forall d :: d in docs && InScope(d, allowed) && Relevant(ScoreOf(q, d, root)) ==>
         Scored(d, ScoreOf(q, d, root)) in r)
  {
    var sorted := SortByScore(ScoreAll(q, Candidates(docs, allowed), root));
    SortByScoreCorrect(ScoreAll(q, Candidates(docs, allowed), root));
    FilterRanked(sorted, IsRelevant);
    RankingSound(q, docs, allowed, root);
    RankingComplete(q, docs, allowed, root);
  }

  /** Soundness of the search: nothing without a query embedding; at most `limit` results
      for a non-negative limit; each result is a stored, in-scope, relevant document; the
      results come best first. */
  lemma SearchSound(q: seq<real>, docs: seq<VectorDocument>, limit: int, allowed: Option<seq<string>>, root: Root)
    ensures var r := SearchResult(q, docs, limit, allowed, root);
      (|q| == 0 ==> r == []) &&
      (0 <= limit ==> |r| <= limit) &&
      (forall i :: 0 <= i < |r| ==>
         r[i] in docs && InScope(r[i], allowed) && Relevant(ScoreOf(q, r[i], root))) &&
      (forall i, j :: 0 <= i < j < |r| ==>
         RanksAtLeast(ScoreOf(q, r[i], root), ScoreOf(q, r[j], root)))
  {
    if |q| > 0 {
      RankingFacts(q, docs, allowed, root);
      var rk := Ranking(q, docs, allowed, root);
      var cut := SliceTo(rk, limit);
      assert forall i :: 0 <= i < |cut| ==> cut[i] == rk[i];
    }
  }

  /** Completeness of the search: a stored, in-scope, relevant document that is missing
      from the results was crowded out: every result ranks at least as high as it, and for
      a non-negative limit the results fill the limit. */
  lemma SearchComplete(q: seq<real>, docs: seq<VectorDocument>, limit: int, allowed: Option<seq<string>>,
                       root: Root, d: VectorDocument)
    requires |q| > 0
    requires d in docs && InScope(d, allowed) && Relevant(ScoreOf(q, d, root))
    requires d !in SearchResult(q, docs, limit, allowed, root)
    ensures 0 <= limit ==> |SearchResult(q, docs, limit, allowed, root)| == limit
    ensures var r := SearchResult(q, docs, limit, allowed, root);
      forall i :: 0 <= i < |r| ==> RanksAtLeast(ScoreOf(q, r[i], root), ScoreOf(q, d, root))
  {
    RankingFacts(q, docs, allowed, root);
    var rk := Ranking(q, docs, allowed, root);
    var cut := SliceTo(rk, limit);
    var r := SearchResult(q, docs, limit, allowed, root);
    var x := Scored(d, ScoreOf(q, d, root));
    var p :| 0 <= p < |rk| && rk[p] == x;
    assert forall i :: 0 <= i < |cut| ==> r[i] == rk[i].doc;
    assert |cut| <= p;
  }

  /** A document without an embedding, or with one shorter than the query, is never returned. */
  lemma SearchSkipsUnusableEmbeddings(q: seq<real>, docs: seq<VectorDocument>, limit: int,
                                      allowed: Option<seq<string>>, root: Root, d: VectorDocument)
    requires d.embedding.None? || |d.embedding.value| < |q|
    ensures d !in SearchResult(q, docs, limit, allowed, root)
  {
    SearchSound(q, docs, limit, allowed, root);
    if d.embedding.Some? {
      CosineShortStored(q, d.embedding.value, root);
    }
  }
}
