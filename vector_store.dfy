/** `services/vectorStore.ts`: the browser-side store of embedded documents behind the agents'
    retrieval. The persisted copy in local storage is the field `saved`; the embedding
    service and `Math.sqrt` are fixed when the store is built. */
module VectorStore {
  import opened Types
  import opened Text
  import opened Seqs
  import opened Provider
  import opened Retrieval
  import Data

  function OtherId(id: string): VectorDocument -> bool {
    (d: VectorDocument) => d.id != id
  }

  /** `docs.filter(d => d.id !== id)` */
  function WithoutId(docs: seq<VectorDocument>, id: string): (r: seq<VectorDocument>)
    ensures forall d :: d in r <==> d in docs && d.id != id
  {
    var r := Filter(docs, OtherId(id));
    assert forall d :: d in r ==> OtherId(id)(d);
    r
  }

  /** The documents after `upsertDocument(doc)` with embedding `e`: every earlier document
      with the same id is dropped and the new one goes last. */
  function Upserted(docs: seq<VectorDocument>, doc: DocInput, e: seq<real>): seq<VectorDocument> {
    WithoutId(docs, doc.id) + [WithEmbedding(doc, e)]
  }

  /** `getEmbedding` against a fixed embedding service. */
  function Embedder(provider: EmbeddingProvider): string -> seq<real> {
    (text: string) => GetEmbedding(provider, text)
  }

  /** The documents after upserting `inputs` one after another, each with the embedding
      `embed` gives its text. */
  function UpsertAll(docs: seq<VectorDocument>, inputs: seq<DocInput>, embed: string -> seq<real>): seq<VectorDocument> {
    if inputs == [] then docs
    else
      var last := inputs[|inputs| - 1];
      Upserted(UpsertAll(docs, inputs[..|inputs| - 1], embed), last, embed(last.content))
  }

  predicate UniqueIds(docs: seq<VectorDocument>) {
    forall i, j :: 0 <= i < j < |docs| ==> docs[i].id != docs[j].id
  }

  predicate HasId(docs: seq<VectorDocument>, id: string) {
    exists i :: 0 <= i < |docs| && docs[i].id == id
  }

  /** Dropping an id keeps the order of what remains, and dropping an id no document has
      changes nothing. */
  lemma WithoutIdFacts(docs: seq<VectorDocument>, id: string)
    ensures IsSubsequence(WithoutId(docs, id), docs)
    ensures !HasId(docs, id) ==> WithoutId(docs, id) == docs
    ensures UniqueIds(docs) ==> UniqueIds(WithoutId(docs, id))
  {
    FilterIsSubsequence(docs, OtherId(id));
    if !HasId(docs, id) {
      FilterKeepsAll(docs, OtherId(id));
    }
    if UniqueIds(docs) {
      UniqueIdsOfSubsequence(WithoutId(docs, id), docs);
    }
  }

  lemma {:induction false} UniqueIdsOfSubsequence(a: seq<VectorDocument>, b: seq<VectorDocument>)
    requires IsSubsequence(a, b) && UniqueIds(b)
    ensures UniqueIds(a)
    decreases |b|
  {
    if a != [] && b != [] {
      var b' := b[..|b| - 1];
      assert UniqueIds(b');
      if a[|a| - 1] == b[|b| - 1] {
        var a' := a[..|a| - 1];
        UniqueIdsOfSubsequence(a', b');
        SubsequenceMembers(a', b');
        forall i | 0 <= i < |a'| ensures a'[i].id != a[|a| - 1].id {
          var k :| 0 <= k < |b'| && b'[k] == a'[i];
          assert b[k] == a'[i];
        }
      } else {
        UniqueIdsOfSubsequence(a, b');
      }
    }
  }

  lemma {:induction false} SubsequenceMembers<T>(a: seq<T>, b: seq<T>)
    requires IsSubsequence(a, b)
    ensures forall i :: 0 <= i < |a| ==> a[i] in b
    decreases |b|
  {
    if a != [] && b != [] {
      if a[|a| - 1] == b[|b| - 1] {
        SubsequenceMembers(a[..|a| - 1], b[..|b| - 1]);
      } else {
        SubsequenceMembers(a, b[..|b| - 1]);
      }
    }
  }

  /** An upsert replaces, never duplicates: the new document is the only one with its id and
      comes last, every other document is kept in order, and unique ids stay unique. */
  lemma UpsertReplaces(docs: seq<VectorDocument>, doc: DocInput, e: seq<real>)
    ensures var r := Upserted(docs, doc, e);
      |r| >= 1 && r[|r| - 1] == WithEmbedding(doc, e) &&
      (forall i :: 0 <= i < |r| - 1 ==> r[i].id != doc.id && r[i] in docs) &&
      (forall d :: d in docs && d.id != doc.id ==> d in r) &&
      IsSubsequence(r[..|r| - 1], docs) &&
      (UniqueIds(docs) ==> UniqueIds(r))
  {
    var w := WithoutId(docs, doc.id);
    var r := Upserted(docs, doc, e);
    assert r[..|r| - 1] == w;
    WithoutIdFacts(docs, doc.id);
    forall d | d in docs && d.id != doc.id ensures d in r {
      var k :| 0 <= k < |docs| && docs[k] == d;
    }
  }

  /** Upserting the same document twice with the same embedding is the same as once. */
  lemma {:induction false} UpsertIdempotent(docs: seq<VectorDocument>, doc: DocInput, e: seq<real>)
    ensures Upserted(Upserted(docs, doc, e), doc, e) == Upserted(docs, doc, e)
  {
    var w := WithoutId(docs, doc.id);
    var x := WithEmbedding(doc, e);
    FilterAppend(w, x, OtherId(doc.id));
    assert forall d :: d in w ==> OtherId(doc.id)(d);
    FilterKeepsAll(w, OtherId(doc.id));
  }

  /** After a removal no document has the id, every other document is kept in order, and
      removing an id that is not there changes nothing. */
  lemma RemoveFacts(docs: seq<VectorDocument>, id: string)
    ensures var r := WithoutId(docs, id);
      !HasId(r, id) &&
      (forall d :: d in r <==> d in docs && d.id != id) &&
      IsSubsequence(r, docs) &&
      (!HasId(docs, id) ==> r == docs) &&
      (UniqueIds(docs) ==> UniqueIds(r))
  {
    WithoutIdFacts(docs, id);
    var r := WithoutId(docs, id);
    forall d ensures d in r <==> d in docs && d.id != id {
      if d in r {
        var k :| 0 <= k < |r| && r[k] == d;
      }
      if d in docs && d.id != id {
        var k :| 0 <= k < |docs| && docs[k] == d;
      }
    }
  }

  /** The inputs with the embeddings of their texts. */
  function EmbedAll(inputs: seq<DocInput>, embed: string -> seq<real>): (r: seq<VectorDocument>)
    ensures |r| == |inputs|
    ensures forall i :: 0 <= i < |inputs| ==> r[i] == WithEmbedding(inputs[i], embed(inputs[i].content))
  {
    if inputs == [] then []
    else
      var last := inputs[|inputs| - 1];
      EmbedAll(inputs[..|inputs| - 1], embed) + [WithEmbedding(last, embed(last.content))]
  }

  /** Upserting a document whose id is not stored appends it. */
  lemma UpsertFresh(docs: seq<VectorDocument>, doc: DocInput, e: seq<real>)
    requires !HasId(docs, doc.id)
    ensures Upserted(docs, doc, e) == docs + [WithEmbedding(doc, e)]
  {
    WithoutIdFacts(docs, doc.id);
  }

  /** With unique ids, dropping an id removes one document if it is stored and none otherwise. */
  lemma {:induction false} WithoutIdCount(docs: seq<VectorDocument>, id: string)
    requires UniqueIds(docs)
    ensures |WithoutId(docs, id)| == if HasId(docs, id) then |docs| - 1 else |docs|
  {
    if docs != [] {
      var init, last := docs[..|docs| - 1], docs[|docs| - 1];
      assert forall i :: 0 <= i < |init| ==> init[i] == docs[i];
      WithoutIdCount(init, id);
      if last.id == id {
        assert docs[|docs| - 1].id == id;
      } else {
        if HasId(docs, id) {
          var i :| 0 <= i < |docs| && docs[i].id == id;
          assert init[i].id == id;
        }
        if HasId(init, id) {
          var i :| 0 <= i < |init| && init[i].id == id;
          assert docs[i].id == id;
        }
      }
    }
  }

  /** With unique ids, an upsert grows the store by one exactly when the id is new. */
  lemma UpsertCount(docs: seq<VectorDocument>, doc: DocInput, e: seq<real>)
    requires UniqueIds(docs)
    ensures |Upserted(docs, doc, e)| == if HasId(docs, doc.id) then |docs| else |docs| + 1
  {
    WithoutIdCount(docs, doc.id);
  }

  /** Upserting documents with distinct ids that are not yet stored appends them in order. */
  lemma {:induction false} UpsertAllFresh(docs: seq<VectorDocument>, inputs: seq<DocInput>, embed: string -> seq<real>)
    requires forall i, j :: 0 <= i < j < |inputs| ==> inputs[i].id != inputs[j].id
    requires forall i :: 0 <= i < |inputs| ==> !HasId(docs, inputs[i].id)
    ensures UpsertAll(docs, inputs, embed) == docs + EmbedAll(inputs, embed)
  {
    if inputs != [] {
      var init, last := inputs[..|inputs| - 1], inputs[|inputs| - 1];
      assert forall i :: 0 <= i < |init| ==> init[i] == inputs[i];
      UpsertAllFresh(docs, init, embed);
      var added := EmbedAll(init, embed);
      var prev := docs + added;
      assert !HasId(docs, last.id);
      forall i | 0 <= i < |prev| ensures prev[i].id != last.id {
        if i >= |docs| {
          assert prev[i] == added[i - |docs|];
          assert added[i - |docs|].id == inputs[i - |docs|].id;
        }
      }
      var e := embed(last.content);
      UpsertFresh(prev, last, e);
      var stored := WithEmbedding(last, e);
      assert UpsertAll(docs, inputs, embed) == Upserted(prev, last, e);
      assert EmbedAll(inputs, embed) == added + [stored];
      AppendAssociative(docs, added, [stored]);
    }
  }

  /** Upserting one more input is one more upsert. */
  lemma UpsertAllSnoc(docs: seq<VectorDocument>, inputs: seq<DocInput>, doc: DocInput, embed: string -> seq<real>)
    ensures UpsertAll(docs, inputs + [doc], embed) == Upserted(UpsertAll(docs, inputs, embed), doc, embed(doc.content))
  {
    assert (inputs + [doc])[..|inputs|] == inputs;
  }

  /** Upserting two lists one after the other is upserting their concatenation. */
  lemma {:induction false} UpsertAllConcat(docs: seq<VectorDocument>, a: seq<DocInput>, b: seq<DocInput>, embed: string -> seq<real>)
    ensures UpsertAll(docs, a + b, embed) == UpsertAll(UpsertAll(docs, a, embed), b, embed)
  {
    if b == [] {
      assert a + b == a;
    } else {
      var init := b[..|b| - 1];
      UpsertAllConcat(docs, a, init, embed);
      assert (a + b)[..|a + b| - 1] == a + init;
    }
  }

  /** A stored document survives upserts of other ids. */
  lemma {:induction false} UpsertAllKeeps(docs: seq<VectorDocument>, inputs: seq<DocInput>, embed: string -> seq<real>, d: VectorDocument)
    requires d in docs
    requires forall i :: 0 <= i < |inputs| ==> inputs[i].id != d.id
    ensures d in UpsertAll(docs, inputs, embed)
  {
    if inputs != [] {
      var init, last := inputs[..|inputs| - 1], inputs[|inputs| - 1];
      UpsertAllKeeps(docs, init, embed, d);
      var prev := UpsertAll(docs, init, embed);
      assert d in WithoutId(prev, last.id);
    }
  }

  /** Starting empty, the seeding stores the seed documents in their order, each with the
      embedding of its text. */
  lemma SeedingStoresSeeds(embed: string -> seq<real>)
    ensures var seeded := UpsertAll([], Data.INITIAL_KNOWLEDGE, embed);
      |seeded| == |Data.INITIAL_KNOWLEDGE| &&
      forall i :: 0 <= i < |seeded| ==>
        seeded[i] == WithEmbedding(Data.INITIAL_KNOWLEDGE[i], embed(Data.INITIAL_KNOWLEDGE[i].content))
  {
    UpsertAllFresh([], Data.INITIAL_KNOWLEDGE, embed);
    assert [] + EmbedAll(Data.INITIAL_KNOWLEDGE, embed) == EmbedAll(Data.INITIAL_KNOWLEDGE, embed);
  }

  /** The test `getDocumentsByType` applies for a type other than "ALL". */
  function OfType(t: string): VectorDocument -> bool {
    (d: VectorDocument) => KindName(d.kind) == t || d.metadata.category == Some(t)
  }

  function HasCategory(c: string): VectorDocument -> bool {
    (d: VectorDocument) => d.metadata.category == Some(c)
  }

  /** Documents in three different categories are at most all documents. */
  lemma {:induction false} CategoryCountsBounded(docs: seq<VectorDocument>, a: string, b: string, c: string)
    requires a != b && b != c && a != c
    ensures Count(docs, HasCategory(a)) + Count(docs, HasCategory(b)) + Count(docs, HasCategory(c)) <= |docs|
  {
    if docs != [] {
      CategoryCountsBounded(docs[..|docs| - 1], a, b, c);
    }
  }

  datatype Stats = Stats(totalDocs: nat, core: nat, tech: nat, marketing: nat)

  class VectorStore {
    var documents: seq<VectorDocument>
    var initialized: bool
    /** The persisted copy of `documents`, or `None` while nothing was ever written. */
    var saved: Option<seq<VectorDocument>>
    const provider: EmbeddingProvider
    const sqrt: Root

    /** `new VectorStore()` then `load()`: restore the persisted documents, or seed the
        store when nothing is persisted. */
    constructor (persisted: Option<seq<VectorDocument>>, provider: EmbeddingProvider, sqrt: Root)
      ensures this.provider == provider && this.sqrt == sqrt && initialized
      ensures persisted.Some? ==> documents == persisted.value && saved == persisted
      ensures persisted.None? ==> documents == UpsertAll([], Data.INITIAL_KNOWLEDGE, Embedder(provider)) &&
                                  saved == Some(documents)
    {
      this.provider := provider;
      this.sqrt := sqrt;
      documents := [];
      initialized := false;
      saved := persisted;
      new;
      Load();
    }

    method Load()
      modifies this
      ensures initialized
      ensures old(saved).Some? ==> documents == old(saved).value && saved == old(saved)
      ensures old(saved).None? && old(initialized) ==> documents == old(documents) && saved == old(saved)
      ensures old(saved).None? && !old(initialized) ==>
        documents == UpsertAll(old(documents), Data.INITIAL_KNOWLEDGE, Embedder(provider)) && saved == Some(documents)
    {
      if saved.Some? {
        documents := saved.value;
        initialized := true;
      } else {
        InitializeMemory();
      }
    }

    /** Upserts every seed document once; a second call does nothing. */
    method InitializeMemory()
      modifies this
      ensures initialized
      ensures old(initialized) ==> documents == old(documents) && saved == old(saved)
      ensures !old(initialized) ==>
        documents == UpsertAll(old(documents), Data.INITIAL_KNOWLEDGE, Embedder(provider)) && saved == Some(documents)
    {
      if initialized {
        return;
      }
      assert |Data.INITIAL_KNOWLEDGE| > 0;
      UpsertEach(Data.INITIAL_KNOWLEDGE);
      initialized := true;
    }

    /** The loop of `initializeMemory`: upserts the inputs one after another, each saving. */
    method UpsertEach(inputs: seq<DocInput>)
      modifies this
      ensures documents == UpsertAll(old(documents), inputs, Embedder(provider))
      ensures |inputs| > 0 ==> saved == Some(documents)
      ensures |inputs| == 0 ==> saved == old(saved)
      ensures initialized == old(initialized)
    {
      for i := 0 to |inputs|
        invariant documents == UpsertAll(old(documents), inputs[..i], Embedder(provider))
        invariant i > 0 ==> saved == Some(documents)
        invariant i == 0 ==> saved == old(saved)
        invariant initialized == old(initialized)
      {
        var input := inputs[i];
        ghost var before := documents;
        UpsertAllSnoc(old(documents), inputs[..i], input, Embedder(provider));
        assert inputs[..i + 1] == inputs[..i] + [input];
        assert Embedder(provider)(input.content) == GetEmbedding(provider, input.content);
        UpsertDocument(input);
        assert documents == Upserted(before, input, Embedder(provider)(input.content));
      }
      assert inputs[..|inputs|] == inputs;
    }

    method Save()
      modifies this
      ensures saved == Some(documents)
      ensures documents == old(documents) && initialized == old(initialized)
    {
      saved := Some(documents);
    }

    /** `upsertDocument(doc)`: replaces any document with the same id by `doc` with the
        embedding of its text, appended last, and persists the result. */
    method UpsertDocument(doc: DocInput)
      modifies this
      ensures documents == Upserted(old(documents), doc, GetEmbedding(provider, doc.content))
      ensures saved == Some(documents) && initialized == old(initialized)
    {
      documents := WithoutId(documents, doc.id);
      var embedding := GetEmbedding(provider, doc.content);
      documents := documents + [WithEmbedding(doc, embedding)];
      Save();
    }

    /** `removeDocument(id)`: drops every document with the id and persists the result. */
    method RemoveDocument(id: string)
      modifies this
      ensures documents == WithoutId(old(documents), id)
      ensures saved == Some(documents) && initialized == old(initialized)
    {
      documents := WithoutId(documents, id);
      Save();
    }

    /** `cosineSimilarity(vecA, vecB)`: one pass over the query's coordinates. */
    method CosineSimilarity(vecA: seq<real>, vecB: seq<real>) returns (s: Score)
      ensures s == Cosine(vecA, vecB, sqrt)
    {
      var dotProduct, normA, normB := 0.0, 0.0, 0.0;
      // Set once `vecB[i]` was undefined: from then on the JavaScript sums are NaN.
      var poisoned := false;
      for i := 0 to |vecA|
        invariant normA == SumSquares(vecA, i)
        invariant poisoned <==> i > |vecB|
        invariant !poisoned ==> dotProduct == Dot(vecA, vecB, i) && normB == SumSquares(vecB, i)
      {
        if i < |vecB| {
          assert Dot(vecA, vecB, i + 1) == Dot(vecA, vecB, i) + vecA[i] * vecB[i];
          assert SumSquares(vecB, i + 1) == SumSquares(vecB, i) + vecB[i] * vecB[i];
          dotProduct := dotProduct + vecA[i] * vecB[i];
          normB := normB + vecB[i] * vecB[i];
        } else {
          poisoned := true;
        }
        assert SumSquares(vecA, i + 1) == SumSquares(vecA, i) + vecA[i] * vecA[i];
        normA := normA + vecA[i] * vecA[i];
      }
      if normA == 0.0 {
        s := Num(0.0);
      } else if poisoned {
        s := NaN;
      } else if normB == 0.0 {
        s := Num(0.0);
      } else {
        s := Num(dotProduct / NormProduct(sqrt, normA, normB));
      }
    }

    /** The scoring `map` of `search`: -1 for a document without an embedding, otherwise
        its similarity to the query, each paired with its document in candidate order. */
    method ScoreCandidates(queryEmbedding: seq<real>, candidateDocs: seq<VectorDocument>) returns (scoredDocs: seq<Scored>)
      ensures scoredDocs == ScoreAll(queryEmbedding, candidateDocs, sqrt)
    {
      scoredDocs := [];
      for k := 0 to |candidateDocs|
        invariant scoredDocs == ScoreAll(queryEmbedding, candidateDocs[..k], sqrt)
      {
        var doc := candidateDocs[k];
        var score: Score;
        if doc.embedding.None? {
          score := Num(-1.0);
        } else {
          score := CosineSimilarity(queryEmbedding, doc.embedding.value);
        }
        assert candidateDocs[..k + 1][..k] == candidateDocs[..k];
        scoredDocs := scoredDocs + [Scored(doc, score)];
      }
      assert candidateDocs[..|candidateDocs|] == candidateDocs;
    }

    /** `search(query, limit, allowedCategories)`: the in-scope documents scoring above the
        relevance floor, best first, at most `limit` of them. */
    method Search(query: string, limit: int, allowedCategories: Option<seq<string>>) returns (r: seq<VectorDocument>)
      ensures r == SearchResult(GetEmbedding(provider, query), documents, limit, allowedCategories, sqrt)
      ensures GetEmbedding(provider, query) == [] ==> r == []
      ensures 0 <= limit ==> |r| <= limit
      ensures forall i :: 0 <= i < |r| ==>
        r[i] in documents && InScope(r[i], allowedCategories) &&
        Relevant(ScoreOf(GetEmbedding(provider, query), r[i], sqrt))
      ensures forall i, j :: 0 <= i < j < |r| ==>
        RanksAtLeast(ScoreOf(GetEmbedding(provider, query), r[i], sqrt),
                     ScoreOf(GetEmbedding(provider, query), r[j], sqrt))
    {
      var queryEmbedding := GetEmbedding(provider, query);
      SearchSound(queryEmbedding, documents, limit, allowedCategories, sqrt);
      if |queryEmbedding| == 0 {
        return [];
      }
      var candidateDocs := Candidates(documents, allowedCategories);
      var scoredDocs := ScoreCandidates(queryEmbedding, candidateDocs);
      var ranked := SortByScore(scoredDocs);
      r := Map(SliceTo(Filter(ranked, IsRelevant), limit), DocOf);
    }

    /** `getDocumentsByType(type)`: everything for "ALL", else the documents whose kind or
        category is `type`, in stored order. */
    function GetDocumentsByType(t: string): (r: seq<VectorDocument>)
      reads this
      ensures t == "ALL" ==> r == documents
      ensures t != "ALL" ==>
        forall d :: d in r <==> d in documents && (KindName(d.kind) == t || d.metadata.category == Some(t))
      ensures t != "ALL" ==> |r| == Count(documents, OfType(t))
      ensures IsSubsequence(r, documents)
    {
      if t == "ALL" then
        FilterKeepsAll(documents, (d: VectorDocument) => true);
        FilterIsSubsequence(documents, (d: VectorDocument) => true);
        documents
      else
        FilterIsSubsequence(documents, OfType(t));
        var r := Filter(documents, OfType(t));
        assert forall d :: d in r ==> OfType(t)(d);
        assert forall d :: d in documents && OfType(t)(d) ==> d in r;
        r
    }

    /** `getStats()`: the number of documents and how many are in each named folder. */
    function GetStats(): (s: Stats)
      reads this
      ensures s.totalDocs == |documents|
      ensures s.core == |Filter(documents, HasCategory(CORE_IDENTITY))|
      ensures s.tech == |Filter(documents, HasCategory(TECH_DOCS))|
      ensures s.marketing == |Filter(documents, HasCategory(MARKETING_OPS))|
      ensures s.core + s.tech + s.marketing <= s.totalDocs
    {
      CategoryCountsBounded(documents, CORE_IDENTITY, TECH_DOCS, MARKETING_OPS);
      Stats(|documents|, Count(documents, HasCategory(CORE_IDENTITY)),
            Count(documents, HasCategory(TECH_DOCS)), Count(documents, HasCategory(MARKETING_OPS)))
    }
  }
}
