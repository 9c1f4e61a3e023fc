/** Embedding generation and the in-process embedding cache. The embedding
    service is a parameter: what `genai.embed_content` returns for a task type
    and a text, `None` when the call raises. Ghost logs record every call made
    to the provider so that "the provider is (not) called" can be stated. */
module Embeddings {
  import opened Wrappers

  type Embedding = seq<real>

  /** Texts longer than this are cut before they are sent. */
  const MaxTextLength: nat := 2048
  /** The length of the zero vector that replaces a failed embedding. */
  const FallbackDimension: nat := 768

  datatype TaskType = RetrievalDocument | RetrievalQuery

  type Remote = (TaskType, string) -> Option<Embedding>

  /** A call into `GoogleEmbeddings`, as the cache layer makes it. */
  datatype Call = EmbedDocumentsCall(texts: seq<string>) | EmbedQueryCall(text: string)

  /** The text actually submitted: the first 2048 characters. */
  function Truncate(text: string): (sent: string)
    ensures |sent| <= MaxTextLength
    ensures sent <= text
    ensures |text| <= MaxTextLength ==> sent == text
    ensures |text| > MaxTextLength ==> |sent| == MaxTextLength
  {
    if |text| > MaxTextLength then text[..MaxTextLength] else text
  }

  /** `[0.0] * n`. */
  function ZeroVector(n: nat): (v: Embedding)
    ensures |v| == n
    ensures forall i :: 0 <= i < n ==> v[i] == 0.0
  {
    seq(n, _ => 0.0)
  }

  /** The embedding one text receives: the service's answer for the truncated
      text, or the 768-dimensional zero vector when the service raises. */
  function EmbedText(remote: Remote, task: TaskType, text: string): (e: Embedding)
    ensures remote(task, Truncate(text)).None? ==> |e| == FallbackDimension && forall i :: 0 <= i < |e| ==> e[i] == 0.0
    ensures remote(task, Truncate(text)).Some? ==> e == remote(task, Truncate(text)).value
  {
    match remote(task, Truncate(text))
    case Some(v) => v
    case None => ZeroVector(FallbackDimension)
  }

  /** The service requests made for a list of texts, in order. */
  function Requests(task: TaskType, texts: seq<string>): (rs: seq<(TaskType, string)>)
    ensures |rs| == |texts|
    ensures forall i :: 0 <= i < |texts| ==>
      rs[i].0 == task && |rs[i].1| <= MaxTextLength && rs[i].1 <= texts[i]
  {
    seq(|texts|, i requires 0 <= i < |texts| => (task, Truncate(texts[i])))
  }

  /** `GoogleEmbeddings`: the per-text embedding loop over the service. */
  class GoogleEmbeddings {
    const remote: Remote
    /** The calls made to this object. */
    ghost var calls: seq<Call>
    /** The (task, text) pairs submitted to the service. */
    ghost var submitted: seq<(TaskType, string)>

    constructor (remote: Remote)
      ensures this.remote == remote && calls == [] && submitted == []
    {
      this.remote := remote;
      calls := [];
      submitted := [];
    }

    /** `embed_documents`: one embedding per text, in order; a text whose
        service call raises gets the zero vector and the loop goes on. */
    method EmbedDocuments(texts: seq<string>) returns (embeddings: seq<Embedding>)
      modifies this
      ensures |embeddings| == |texts|
      ensures forall i :: 0 <= i < |texts| ==> embeddings[i] == EmbedText(remote, RetrievalDocument, texts[i])
      ensures calls == old(calls) + [EmbedDocumentsCall(texts)]
      ensures submitted == old(submitted) + Requests(RetrievalDocument, texts)
    {
      calls := calls + [EmbedDocumentsCall(texts)];
      embeddings := [];
      for i := 0 to |texts|
        invariant |embeddings| == i
        invariant forall j :: 0 <= j < i ==> embeddings[j] == EmbedText(remote, RetrievalDocument, texts[j])
        invariant submitted == old(submitted) + Requests(RetrievalDocument, texts[..i])
        invariant calls == old(calls) + [EmbedDocumentsCall(texts)]
      {
        var text := texts[i];
        if |text| > MaxTextLength {
          text := text[..MaxTextLength];
        }
        submitted := submitted + [(RetrievalDocument, text)];
        assert texts[..i + 1][..i] == texts[..i];
        var result := remote(RetrievalDocument, text);
        match result {
          case Some(v) => embeddings := embeddings + [v];
          case None => embeddings := embeddings + [ZeroVector(FallbackDimension)];
        }
      }
      assert texts[..|texts|] == texts;
    }

    /** `embed_query`: the service's embedding of the truncated query, or the
        zero vector when the call raises. */
    method EmbedQuery(text: string) returns (embedding: Embedding)
      modifies this
      ensures embedding == EmbedText(remote, RetrievalQuery, text)
      ensures calls == old(calls) + [EmbedQueryCall(text)]
      ensures submitted == old(submitted) + [(RetrievalQuery, Truncate(text))]
    {
      calls := calls + [EmbedQueryCall(text)];
      var sent := text;
      if |sent| > MaxTextLength {
        sent := sent[..MaxTextLength];
      }
      submitted := submitted + [(RetrievalQuery, sent)];
      match remote(RetrievalQuery, sent) {
        case Some(v) => embedding := v;
        case None => embedding := ZeroVector(FallbackDimension);
      }
    }
  }

  /** `_get_cache_key`: `f"embed_{hash(text)}"`, with the text itself standing
      for its hash. */
  function CacheKey(text: string): (key: string)
    ensures |key| == 6 + |text| && key[..6] == "embed_" && key[6..] == text
  {
    "embed_" + text
  }

  /** Distinct texts never share a cache entry in this model. */
  lemma CacheKeyInjective(a: string, b: string)
    requires CacheKey(a) == CacheKey(b)
    ensures a == b
  {
    assert a == CacheKey(a)[6..];
    assert b == CacheKey(b)[6..];
  }

  type Cache = map<string, Embedding>

  /** The texts of `texts` whose key is not cached, in input order,
      duplicates included. */
  function Misses(cache: Cache, texts: seq<string>): (misses: seq<string>)
    ensures |misses| <= |texts|
    decreases |texts|
  {
    if texts == [] then []
    else
      var last := texts[|texts| - 1];
      Misses(cache, texts[..|texts| - 1]) + (if CacheKey(last) in cache then [] else [last])
  }

  /** Appending a text appends it to the misses exactly when it is uncached. */
  lemma MissesSnoc(cache: Cache, texts: seq<string>, t: string)
    ensures Misses(cache, texts + [t]) == Misses(cache, texts) + (if CacheKey(t) in cache then [] else [t])
  {
    assert (texts + [t])[..|texts|] == texts;
  }

  /** The misses are the uncached inputs: each is an uncached input text, and
      each uncached input text is among them. */
  lemma {:induction false} MissesMembers(cache: Cache, texts: seq<string>)
    ensures forall t :: t in Misses(cache, texts) ==> t in texts && CacheKey(t) !in cache
    ensures forall i :: 0 <= i < |texts| && CacheKey(texts[i]) !in cache ==> texts[i] in Misses(cache, texts)
    decreases |texts|
  {
    if texts != [] {
      var init := texts[..|texts| - 1];
      MissesMembers(cache, init);
      assert forall i :: 0 <= i < |init| ==> init[i] == texts[i];
    }
  }

  /** With nothing cached, every text is a miss, repeated texts included. */
  lemma {:induction false} MissesOfEmpty(texts: seq<string>)
    ensures Misses(map[], texts) == texts
    decreases |texts|
  {
    if texts != [] {
      MissesOfEmpty(texts[..|texts| - 1]);
      assert texts[..|texts| - 1] + [texts[|texts| - 1]] == texts;
    }
  }

  /** Once every key is cached, a repeat call has no misses. */
  lemma {:induction false} MissesWhenCached(cache: Cache, texts: seq<string>)
    requires forall t :: t in texts ==> CacheKey(t) in cache
    ensures Misses(cache, texts) == []
    decreases |texts|
  {
    if texts != [] {
      var init := texts[..|texts| - 1];
      assert forall t :: t in init ==> t in texts;
      MissesWhenCached(cache, init);
    }
  }

  /** The positions of the uncached texts, in input order. */
  function MissIndices(cache: Cache, texts: seq<string>): (indices: seq<nat>)
    decreases |texts|
  {
    if texts == [] then []
    else
      var n := |texts| - 1;
      MissIndices(cache, texts[..n]) + (if CacheKey(texts[n]) in cache then [] else [n])
  }

  /** The positions line up with the misses: the `j`-th position holds the
      `j`-th miss. */
  lemma {:induction false} MissIndicesMatchMisses(cache: Cache, texts: seq<string>)
    ensures |MissIndices(cache, texts)| == |Misses(cache, texts)|
    ensures forall j :: 0 <= j < |MissIndices(cache, texts)| ==>
      MissIndices(cache, texts)[j] < |texts| && texts[MissIndices(cache, texts)[j]] == Misses(cache, texts)[j]
    decreases |texts|
  {
    if texts != [] {
      var n := |texts| - 1;
      var init := texts[..n];
      MissIndicesMatchMisses(cache, init);
      var pre, misses := MissIndices(cache, init), Misses(cache, init);
      forall j | 0 <= j < |pre|
        ensures MissIndices(cache, texts)[j] == pre[j] && Misses(cache, texts)[j] == misses[j]
        ensures pre[j] < |texts| && texts[pre[j]] == misses[j]
      {
        assert init[pre[j]] == texts[pre[j]];
      }
    }
  }

  /** Every uncached position is listed. */
  lemma {:induction false} MissIndicesCover(cache: Cache, texts: seq<string>)
    ensures forall p :: 0 <= p < |texts| && CacheKey(texts[p]) !in cache ==> p in MissIndices(cache, texts)
    decreases |texts|
  {
    if texts != [] {
      var n := |texts| - 1;
      var init := texts[..n];
      MissIndicesCover(cache, init);
      forall p | 0 <= p < n && CacheKey(texts[p]) !in cache
        ensures p in MissIndices(cache, texts)
      {
        assert init[p] == texts[p];
        assert p in MissIndices(cache, init);
      }
    }
  }

  /** The cache statistics `cache_stats` reports. */
  datatype CacheStats = CacheStats(cachedEmbeddings: nat, totalCacheSize: nat)

  /** The sum of the lengths of the cached vectors. */
  ghost function TotalSize(m: Cache): nat
    decreases |m|
  {
    if m == map[] then 0
    else
      var k :| k in m;
      assert |m - {k}| < |m| by {
        assert (m - {k}).Keys == m.Keys - {k};
      }
      |m[k]| + TotalSize(m - {k})
  }

  /** The total does not depend on the order in which keys are taken. */
  lemma {:induction false} TotalSizeRemove(m: Cache, k: string)
    requires k in m
    ensures TotalSize(m) == |m[k]| + TotalSize(m - {k})
    decreases |m|
  {
    var j :| j in m && TotalSize(m) == |m[j]| + TotalSize(m - {j});
    if j != k {
      assert (m - {j}).Keys == m.Keys - {j};
      assert (m - {k}).Keys == m.Keys - {k};
      TotalSizeRemove(m - {j}, k);
      TotalSizeRemove(m - {k}, j);
      assert m - {j} - {k} == m - {k} - {j};
    }
  }

  /** The vectors of a fully filled list of result slots. */
  function Unwrap(slots: seq<Option<Embedding>>): (vectors: seq<Embedding>)
    requires forall p :: 0 <= p < |slots| ==> slots[p].Some?
    ensures |vectors| == |slots|
    ensures forall p :: 0 <= p < |slots| ==> slots[p] == Some(vectors[p])
  {
    seq(|slots|, p requires 0 <= p < |slots| => slots[p].value)
  }

  /** The first pass of `get_embeddings`: each position holds its cached
      vector or a placeholder, and the uncached texts are collected with their
      positions, in input order. */
  method Partition(cache: Cache, texts: seq<string>)
    returns (slots: seq<Option<Embedding>>, textsToEmbed: seq<string>, indicesToEmbed: seq<nat>)
    ensures |slots| == |texts|
    ensures textsToEmbed == Misses(cache, texts)
    ensures |indicesToEmbed| == |textsToEmbed|
    ensures forall j :: 0 <= j < |indicesToEmbed| ==>
      indicesToEmbed[j] < |texts| && texts[indicesToEmbed[j]] == textsToEmbed[j]
    ensures forall p :: 0 <= p < |texts| && CacheKey(texts[p]) in cache ==> slots[p] == Some(cache[CacheKey(texts[p])])
    ensures forall p :: 0 <= p < |texts| && CacheKey(texts[p]) !in cache ==> slots[p] == None && p in indicesToEmbed
  {
    slots, textsToEmbed, indicesToEmbed := [], [], [];
    for i := 0 to |texts|
      invariant |slots| == i
      invariant textsToEmbed == Misses(cache, texts[..i])
      invariant indicesToEmbed == MissIndices(cache, texts[..i])
      invariant forall p :: 0 <= p < i && CacheKey(texts[p]) in cache ==> slots[p] == Some(cache[CacheKey(texts[p])])
      invariant forall p :: 0 <= p < i && CacheKey(texts[p]) !in cache ==> slots[p] == None
    {
      assert texts[..i + 1][..i] == texts[..i] && texts[..i + 1][i] == texts[i];
      var cacheKey := CacheKey(texts[i]);
      if cacheKey in cache {
        slots := slots + [Some(cache[cacheKey])];
      } else {
        slots := slots + [None];
        textsToEmbed := textsToEmbed + [texts[i]];
        indicesToEmbed := indicesToEmbed + [i];
      }
    }
    assert texts[..|texts|] == texts;
    MissIndicesMatchMisses(cache, texts);
    MissIndicesCover(cache, texts);
  }

  /** What the cache layer returns for a text: its cached vector, or else the
      provider's document embedding of it. */
  function CachedOrEmbedded(cache: Cache, remote: Remote, text: string): (e: Embedding)
    ensures CacheKey(text) in cache ==> e == cache[CacheKey(text)]
    ensures CacheKey(text) !in cache ==> e == EmbedText(remote, RetrievalDocument, text)
  {
    if CacheKey(text) in cache then cache[CacheKey(text)] else EmbedText(remote, RetrievalDocument, text)
  }

  /** `EmbeddingManager`: a cache from keys to vectors in front of a
      `GoogleEmbeddings`. Document and query embeddings share one key space. */
  class EmbeddingManager {
    const model: GoogleEmbeddings
    var cache: Cache

    constructor (model: GoogleEmbeddings)
      ensures this.model == model && cache == map[]
    {
      this.model := model;
      cache := map[];
    }

    /** `get_embeddings`. Without the cache: the provider's answer, and the
        cache is untouched. With it: cached keys give their cached vector,
        the provider is called once (or not at all) with exactly the uncached
        texts in input order, and every input key is cached afterwards while
        every earlier entry is kept. */
    method GetEmbeddings(texts: seq<string>, useCache: bool) returns (embeddings: seq<Embedding>)
      modifies this, model
      ensures |embeddings| == |texts|
      ensures !useCache ==>
        && cache == old(cache)
        && (forall i :: 0 <= i < |texts| ==> embeddings[i] == EmbedText(model.remote, RetrievalDocument, texts[i]))
        && model.calls == old(model.calls) + [EmbedDocumentsCall(texts)]
        && model.submitted == old(model.submitted) + Requests(RetrievalDocument, texts)
      ensures useCache ==>
        forall i :: 0 <= i < |texts| ==> embeddings[i] == CachedOrEmbedded(old(cache), model.remote, texts[i])
      ensures useCache ==>
        var misses := Misses(old(cache), texts);
        && model.calls == old(model.calls) + (if misses == [] then [] else [EmbedDocumentsCall(misses)])
        && model.submitted == old(model.submitted) + Requests(RetrievalDocument, misses)
      ensures useCache ==> cache.Keys == old(cache).Keys + set t | t in texts :: CacheKey(t)
      ensures useCache ==> forall k :: k in old(cache) ==> cache[k] == old(cache)[k]
      ensures useCache ==>
        forall i :: 0 <= i < |texts| && CacheKey(texts[i]) !in old(cache) ==>
          cache[CacheKey(texts[i])] == EmbedText(model.remote, RetrievalDocument, texts[i])
    {
      if useCache {
        embeddings := GetCachedEmbeddings(texts);
      } else {
        embeddings := model.EmbedDocuments(texts);
      }
    }

    /** The cached branch of `get_embeddings`. */
    method GetCachedEmbeddings(texts: seq<string>) returns (embeddings: seq<Embedding>)
      modifies this, model
      ensures |embeddings| == |texts|
      ensures forall i :: 0 <= i < |texts| ==>
        embeddings[i] == CachedOrEmbedded(old(cache), model.remote, texts[i])
      ensures var misses := Misses(old(cache), texts);
        && model.calls == old(model.calls) + (if misses == [] then [] else [EmbedDocumentsCall(misses)])
        && model.submitted == old(model.submitted) + Requests(RetrievalDocument, misses)
      ensures cache.Keys == old(cache).Keys + set t | t in texts :: CacheKey(t)
      ensures forall k :: k in old(cache) ==> cache[k] == old(cache)[k]
      ensures forall i :: 0 <= i < |texts| && CacheKey(texts[i]) !in old(cache) ==>
        cache[CacheKey(texts[i])] == EmbedText(model.remote, RetrievalDocument, texts[i])
    {
      var c0 := cache;
      var slots, textsToEmbed, indicesToEmbed := Partition(c0, texts);
      UncachedIndices(c0, texts, textsToEmbed, indicesToEmbed);
      var merged := slots;
      if textsToEmbed != [] {
        var newEmbeddings := model.EmbedDocuments(textsToEmbed);
        merged := StoreNew(texts, slots, indicesToEmbed, newEmbeddings);
      } else {
        assert indicesToEmbed == [];
      }
      MergeComplete(c0, model.remote, texts, indicesToEmbed, merged, cache);
      embeddings := Unwrap(merged);
    }

    /** The second pass of `get_embeddings`: each new vector is written to
        the cache under its text's key and into the result at its position. */
    method StoreNew(texts: seq<string>, slots: seq<Option<Embedding>>, indices: seq<nat>, newEmbeddings: seq<Embedding>)
      returns (merged: seq<Option<Embedding>>)
      requires |slots| == |texts| && |newEmbeddings| == |indices|
      requires forall j :: 0 <= j < |indices| ==> indices[j] < |texts| && CacheKey(texts[indices[j]]) !in cache
      requires forall j :: 0 <= j < |indices| ==> newEmbeddings[j] == EmbedText(model.remote, RetrievalDocument, texts[indices[j]])
      modifies this
      ensures cache.Keys == old(cache).Keys + set q | 0 <= q < |indices| :: CacheKey(texts[indices[q]])
      ensures forall k :: k in old(cache) ==> cache[k] == old(cache)[k]
      ensures forall q :: 0 <= q < |indices| ==>
        cache[CacheKey(texts[indices[q]])] == EmbedText(model.remote, RetrievalDocument, texts[indices[q]])
      ensures |merged| == |slots|
      ensures forall p :: 0 <= p < |slots| && p !in indices ==> merged[p] == slots[p]
      ensures forall p :: 0 <= p < |slots| && p in indices ==>
        merged[p] == Some(EmbedText(model.remote, RetrievalDocument, texts[p]))
    {
      merged := slots;
      for j := 0 to |indices|
        invariant cache == StoreAll(old(cache), texts, indices[..j], newEmbeddings[..j])
        invariant merged == MergeAll(slots, indices[..j], newEmbeddings[..j])
      {
        assert indices[..j + 1][..j] == indices[..j] && newEmbeddings[..j + 1][..j] == newEmbeddings[..j];
        var idx := indices[j];
        var cacheKey := CacheKey(texts[idx]);
        cache := cache[cacheKey := newEmbeddings[j]];
        merged := merged[idx := Some(newEmbeddings[j])];
      }
      assert indices[..|indices|] == indices && newEmbeddings[..|newEmbeddings|] == newEmbeddings;
      StoreAllKeys(old(cache), texts, indices, newEmbeddings);
      StoreAllKeepsOld(old(cache), texts, indices, newEmbeddings);
      StoreAllNew(old(cache), model.remote, texts, indices, newEmbeddings);
      MergeAllWrites(slots, model.remote, texts, indices, newEmbeddings);
    }

    /** `get_query_embedding`: a single-key memo in the same key space as the
        documents. */
    method GetQueryEmbedding(query: string, useCache: bool) returns (embedding: Embedding)
      modifies this, model
      ensures !useCache ==>
        && embedding == EmbedText(model.remote, RetrievalQuery, query)
        && cache == old(cache)
        && model.calls == old(model.calls) + [EmbedQueryCall(query)]
        && model.submitted == old(model.submitted) + [(RetrievalQuery, Truncate(query))]
      ensures useCache && CacheKey(query) in old(cache) ==>
        && embedding == old(cache)[CacheKey(query)]
        && cache == old(cache)
        && model.calls == old(model.calls)
        && model.submitted == old(model.submitted)
      ensures useCache && CacheKey(query) !in old(cache) ==>
        && embedding == EmbedText(model.remote, RetrievalQuery, query)
        && cache == old(cache)[CacheKey(query) := embedding]
        && model.calls == old(model.calls) + [EmbedQueryCall(query)]
        && model.submitted == old(model.submitted) + [(RetrievalQuery, Truncate(query))]
    {
      if !useCache {
        embedding := model.EmbedQuery(query);
        return;
      }
      var cacheKey := CacheKey(query);
      if cacheKey in cache {
        return cache[cacheKey];
      }
      embedding := model.EmbedQuery(query);
      cache := cache[cacheKey := embedding];
    }

    /** `clear_cache`. */
    method ClearCache()
      modifies this
      ensures cache == map[]
    {
      cache := map[];
    }

    /** `cache_stats`: the number of entries and the total vector length. */
    method GetCacheStats() returns (stats: CacheStats)
      ensures stats.cachedEmbeddings == |cache|
      ensures stats.totalCacheSize == TotalSize(cache)
    {
      var rest := cache;
      var total := 0;
      while rest != map[]
        invariant total + TotalSize(rest) == TotalSize(cache)
        decreases |rest|
      {
        var k :| k in rest;
        TotalSizeRemove(rest, k);
        total := total + |rest[k]|;
        assert (rest - {k}).Keys == rest.Keys - {k};
        rest := rest - {k};
      }
      stats := CacheStats(|cache|, total);
    }
  }

  /** The cache after each new vector is written under its text's key, in order. */
  function StoreAll(cache: Cache, texts: seq<string>, indices: seq<nat>, newEmbeddings: seq<Embedding>): Cache
    requires |newEmbeddings| == |indices|
    requires forall j :: 0 <= j < |indices| ==> indices[j] < |texts|
    decreases |indices|
  {
    if indices == [] then cache
    else
      var n := |indices| - 1;
      StoreAll(cache, texts, indices[..n], newEmbeddings[..n])[CacheKey(texts[indices[n]]) := newEmbeddings[n]]
  }

  /** The result slots after each new vector is placed at its position, in order. */
  function MergeAll(slots: seq<Option<Embedding>>, indices: seq<nat>, newEmbeddings: seq<Embedding>): (merged: seq<Option<Embedding>>)
    requires |newEmbeddings| == |indices|
    requires forall j :: 0 <= j < |indices| ==> indices[j] < |slots|
    ensures |merged| == |slots|
    decreases |indices|
  {
    if indices == [] then slots
    else
      var n := |indices| - 1;
      MergeAll(slots, indices[..n], newEmbeddings[..n])[indices[n] := Some(newEmbeddings[n])]
  }

  /** Writing the new vectors adds exactly their keys to the cache. */
  lemma {:induction false} StoreAllKeys(cache: Cache, texts: seq<string>, indices: seq<nat>, newEmbeddings: seq<Embedding>)
    requires |newEmbeddings| == |indices|
    requires forall j :: 0 <= j < |indices| ==> indices[j] < |texts|
    ensures StoreAll(cache, texts, indices, newEmbeddings).Keys
      == cache.Keys + set q | 0 <= q < |indices| :: CacheKey(texts[indices[q]])
    decreases |indices|
  {
    if indices != [] {
      var n := |indices| - 1;
      var pre := indices[..n];
      StoreAllKeys(cache, texts, pre, newEmbeddings[..n]);
      var key := CacheKey(texts[indices[n]]);
      var whole := set q | 0 <= q < |indices| :: CacheKey(texts[indices[q]]);
      var before := set q | 0 <= q < n :: CacheKey(texts[pre[q]]);
      forall k | k in whole ensures k in before + {key} {
        var q :| 0 <= q < |indices| && k == CacheKey(texts[indices[q]]);
        if q < n {
          assert pre[q] == indices[q];
        }
      }
      forall k | k in before ensures k in whole {
        var q :| 0 <= q < n && k == CacheKey(texts[pre[q]]);
        assert pre[q] == indices[q];
      }
      assert whole == before + {key};
    }
  }

  /** Writing vectors under keys the cache did not hold keeps every earlier entry. */
  lemma {:induction false} StoreAllKeepsOld(cache: Cache, texts: seq<string>, indices: seq<nat>, newEmbeddings: seq<Embedding>)
    requires |newEmbeddings| == |indices|
    requires forall j :: 0 <= j < |indices| ==> indices[j] < |texts| && CacheKey(texts[indices[j]]) !in cache
    ensures forall k :: k in cache ==>
      (k in StoreAll(cache, texts, indices, newEmbeddings) && StoreAll(cache, texts, indices, newEmbeddings)[k] == cache[k])
    decreases |indices|
  {
    if indices != [] {
      var n := |indices| - 1;
      StoreAllKeepsOld(cache, texts, indices[..n], newEmbeddings[..n]);
    }
  }

  /** After writing the provider's vectors, each written key holds its text's
      vector (a text repeated in the batch gets the same vector each time). */
  lemma {:induction false} StoreAllNew(cache: Cache, remote: Remote, texts: seq<string>, indices: seq<nat>, newEmbeddings: seq<Embedding>)
    requires |newEmbeddings| == |indices|
    requires forall j :: 0 <= j < |indices| ==> indices[j] < |texts|
    requires forall j :: 0 <= j < |indices| ==> newEmbeddings[j] == EmbedText(remote, RetrievalDocument, texts[indices[j]])
    ensures forall q :: 0 <= q < |indices| ==>
      (&& CacheKey(texts[indices[q]]) in StoreAll(cache, texts, indices, newEmbeddings)
       && StoreAll(cache, texts, indices, newEmbeddings)[CacheKey(texts[indices[q]])]
            == EmbedText(remote, RetrievalDocument, texts[indices[q]]))
    decreases |indices|
  {
    if indices != [] {
      var n := |indices| - 1;
      var pre, preNew := indices[..n], newEmbeddings[..n];
      StoreAllNew(cache, remote, texts, pre, preNew);
      var key := CacheKey(texts[indices[n]]);
      var before := StoreAll(cache, texts, pre, preNew);
      forall q | 0 <= q < n
        ensures CacheKey(texts[indices[q]]) in before[key := newEmbeddings[n]]
        ensures before[key := newEmbeddings[n]][CacheKey(texts[indices[q]])] == EmbedText(remote, RetrievalDocument, texts[indices[q]])
      {
        assert pre[q] == indices[q];
        if CacheKey(texts[indices[q]]) == key {
          CacheKeyInjective(texts[indices[q]], texts[indices[n]]);
        }
      }
    }
  }

  /** Placing the provider's vectors fills exactly the listed positions, each
      with its text's vector, and leaves every other position as it was. */
  lemma {:induction false} MergeAllWrites(slots: seq<Option<Embedding>>, remote: Remote, texts: seq<string>, indices: seq<nat>, newEmbeddings: seq<Embedding>)
    requires |slots| == |texts| && |newEmbeddings| == |indices|
    requires forall j :: 0 <= j < |indices| ==> indices[j] < |texts|
    requires forall j :: 0 <= j < |indices| ==> newEmbeddings[j] == EmbedText(remote, RetrievalDocument, texts[indices[j]])
    ensures forall p :: 0 <= p < |slots| && p !in indices ==> MergeAll(slots, indices, newEmbeddings)[p] == slots[p]
    ensures forall p :: 0 <= p < |slots| && p in indices ==>
      MergeAll(slots, indices, newEmbeddings)[p] == Some(EmbedText(remote, RetrievalDocument, texts[p]))
    decreases |indices|
  {
    if indices != [] {
      var n := |indices| - 1;
      var pre, preNew := indices[..n], newEmbeddings[..n];
      MergeAllWrites(slots, remote, texts, pre, preNew);
      assert forall p :: p in indices <==> p in pre || p == indices[n] by {
        assert indices == pre + [indices[n]];
      }
    }
  }

  /** The positions collected by the first pass are positions of uncached texts. */
  lemma UncachedIndices(c0: Cache, texts: seq<string>, textsToEmbed: seq<string>, indices: seq<nat>)
    requires textsToEmbed == Misses(c0, texts)
    requires |indices| == |textsToEmbed|
    requires forall j :: 0 <= j < |indices| ==> indices[j] < |texts| && texts[indices[j]] == textsToEmbed[j]
    ensures forall j :: 0 <= j < |indices| ==> CacheKey(texts[indices[j]]) !in c0
  {
    MissesMembers(c0, texts);
    forall j | 0 <= j < |indices| ensures CacheKey(texts[indices[j]]) !in c0 {
      assert textsToEmbed[j] in Misses(c0, texts);
    }
  }

  /** After both passes every position holds its vector and the cache holds
      every input key. */
  lemma MergeComplete(c0: Cache, remote: Remote, texts: seq<string>, indices: seq<nat>,
                      merged: seq<Option<Embedding>>, cache: Cache)
    requires |merged| == |texts|
    requires forall j :: 0 <= j < |indices| ==> indices[j] < |texts| && CacheKey(texts[indices[j]]) !in c0
    requires forall p :: 0 <= p < |texts| && CacheKey(texts[p]) !in c0 ==> p in indices
    requires forall p :: 0 <= p < |texts| && CacheKey(texts[p]) in c0 ==> merged[p] == Some(c0[CacheKey(texts[p])])
    requires forall p :: 0 <= p < |texts| && p in indices ==>
      merged[p] == Some(EmbedText(remote, RetrievalDocument, texts[p]))
    requires cache.Keys == c0.Keys + set q | 0 <= q < |indices| :: CacheKey(texts[indices[q]])
    requires forall q :: 0 <= q < |indices| ==>
      cache[CacheKey(texts[indices[q]])] == EmbedText(remote, RetrievalDocument, texts[indices[q]])
    ensures forall p :: 0 <= p < |texts| ==> merged[p] == Some(CachedOrEmbedded(c0, remote, texts[p]))
    ensures cache.Keys == c0.Keys + set t | t in texts :: CacheKey(t)
    ensures forall p :: 0 <= p < |texts| && CacheKey(texts[p]) !in c0 ==>
      cache[CacheKey(texts[p])] == EmbedText(remote, RetrievalDocument, texts[p])
  {
    forall p | 0 <= p < |texts| && CacheKey(texts[p]) !in c0
      ensures cache[CacheKey(texts[p])] == EmbedText(remote, RetrievalDocument, texts[p])
    {
      var q :| 0 <= q < |indices| && indices[q] == p;
    }
    KeysCovered(c0, texts, indices, cache);
  }

  /** The keys written by the merge step are exactly the keys of the inputs
      that were not cached. */
  lemma KeysCovered(c0: Cache, texts: seq<string>, indices: seq<nat>, cache: Cache)
    requires forall j :: 0 <= j < |indices| ==> indices[j] < |texts|
    requires forall p :: 0 <= p < |texts| && CacheKey(texts[p]) !in c0 ==> p in indices
    requires cache.Keys == c0.Keys + set q | 0 <= q < |indices| :: CacheKey(texts[indices[q]])
    ensures cache.Keys == c0.Keys + set t | t in texts :: CacheKey(t)
  {
    forall k | k in cache.Keys ensures k in c0.Keys + set t | t in texts :: CacheKey(t) {
      if k !in c0.Keys {
        var q :| 0 <= q < |indices| && k == CacheKey(texts[indices[q]]);
        assert texts[indices[q]] in texts;
      }
    }
    forall t | t in texts ensures CacheKey(t) in cache.Keys {
      var p :| 0 <= p < |texts| && texts[p] == t;
      if CacheKey(t) !in c0 {
        var q :| 0 <= q < |indices| && indices[q] == p;
        assert CacheKey(texts[indices[q]]) in set q | 0 <= q < |indices| :: CacheKey(texts[indices[q]]);
      }
    }
  }

  /** Embedding the same query twice with the cache on calls the provider at
      most once, and both calls return the same vector. */
  method RepeatedQuery(manager: EmbeddingManager, query: string) returns (first: Embedding, second: Embedding)
    modifies manager, manager.model
    ensures first == second
    ensures manager.model.calls ==
      old(manager.model.calls) + (if CacheKey(query) in old(manager.cache) then [] else [EmbedQueryCall(query)])
  {
    first := manager.GetQueryEmbedding(query, true);
    second := manager.GetQueryEmbedding(query, true);
  }

  /** A query text that was first embedded as a document is answered from the
      cache with the document vector: both embeddings share one key space. */
  method DocumentThenQuery(manager: EmbeddingManager, text: string) returns (document: Embedding, query: Embedding)
    modifies manager, manager.model
    ensures query == document
    ensures CacheKey(text) !in old(manager.cache) ==>
      manager.model.calls == old(manager.model.calls) + [EmbedDocumentsCall([text])]
  {
    MissesSnoc(manager.cache, [], text);
    var documents := manager.GetEmbeddings([text], true);
    document := documents[0];
    query := manager.GetQueryEmbedding(text, true);
  }
}
