/** The retrieval-augmented query path: the vector store's batched insertion
    and thresholded search, context assembly under a length budget, the answer
    prompt, confidence, source formatting and the `query` orchestration.
    Chroma, the Gemini client and the injected collaborators are parameters. */
module Pipeline {
  import opened Wrappers
  import opened Documents
  import Text
  import Config

  function Min(a: int, b: int): int
  {
    if a <= b then a else b
  }

  // ---------------------------------------------------------------------
  // GoogleLLM

  const ApologyAnswer := "I apologize, but I encountered an error processing your request. Please try again."

  datatype GenerationConfig = GenerationConfig(maxOutputTokens: int, temperature: real, topP: real)

  /** `generate_content(prompt, generation_config).text`; `None` when it raises. */
  type Client = (string, GenerationConfig) -> Option<string>

  /** `GoogleLLM.generate`: the model's text under fixed decoding settings, or
      a fixed apology when the client raises; it never raises itself. */
  function GoogleGenerate(client: Client, prompt: string, maxTokens: int): (text: string)
    ensures client(prompt, GenerationConfig(maxTokens, 0.1, 0.8)).Some? ==>
      text == client(prompt, GenerationConfig(maxTokens, 0.1, 0.8)).value
    ensures client(prompt, GenerationConfig(maxTokens, 0.1, 0.8)).None? ==> text == ApologyAnswer
  {
    client(prompt, GenerationConfig(maxTokens, 0.1, 0.8)).GetOr(ApologyAnswer)
  }

  /** The language model the pipeline is given: `generate(prompt, max_tokens)`,
      `None` when it raises. A ghost log records every prompt it receives. */
  class LanguageModel {
    const respond: (string, int) -> Option<string>
    ghost var prompts: seq<string>

    constructor (respond: (string, int) -> Option<string>)
      ensures this.respond == respond && prompts == []
    {
      this.respond := respond;
      prompts := [];
    }

    method Generate(prompt: string, maxTokens: int) returns (answer: Option<string>)
      modifies this
      ensures answer == respond(prompt, maxTokens)
      ensures prompts == old(prompts) + [prompt]
    {
      prompts := prompts + [prompt];
      answer := respond(prompt, maxTokens);
    }
  }

  // ---------------------------------------------------------------------
  // VectorStore: batched insertion

  /** The batches `add_documents` sends: consecutive slices of 50 documents,
      the last one possibly shorter. */
  function Batches(documents: seq<Document>): (batches: seq<seq<Document>>)
    ensures |batches| == (|documents| + 49) / 50
  {
    var n := |documents|;
    seq((n + 49) / 50,
        b requires 0 <= b < (n + 49) / 50 => documents[b * 50 .. Min(b * 50 + 50, n)])
  }

  /** The concatenation of a list of batches. */
  function Flatten(batches: seq<seq<Document>>): seq<Document>
    decreases |batches|
  {
    if batches == [] then [] else Flatten(batches[..|batches| - 1]) + batches[|batches| - 1]
  }

  /** The first `b` batches hold exactly the first `50 * b` documents. */
  lemma {:induction false} FlattenBatchesPrefix(documents: seq<Document>, b: nat)
    requires b <= |Batches(documents)|
    ensures Flatten(Batches(documents)[..b]) == documents[..Min(b * 50, |documents|)]
    decreases b
  {
    var bs := Batches(documents);
    if b > 0 {
      FlattenBatchesPrefix(documents, b - 1);
      assert bs[..b][..b - 1] == bs[..b - 1];
      var lo := (b - 1) * 50;
      assert lo < |documents|;
      assert documents[..Min(b * 50, |documents|)] == documents[..lo] + documents[lo..Min(b * 50, |documents|)];
    }
  }

  /** Batching loses, reorders and duplicates nothing: the batches concatenate
      back to the input, every batch is non-empty and at most 50 long, and all
      but the last hold exactly 50. */
  lemma BatchesPartition(documents: seq<Document>)
    ensures Flatten(Batches(documents)) == documents
    ensures forall b :: 0 <= b < |Batches(documents)| ==> 1 <= |Batches(documents)[b]| <= 50
    ensures forall b :: 0 <= b < |Batches(documents)| - 1 ==> |Batches(documents)[b]| == 50
  {
    var bs := Batches(documents);
    FlattenBatchesPrefix(documents, |bs|);
    assert bs[..|bs|] == bs;
  }

  /** What one iteration of the insertion loop relies on: batch `b` is the
      slice starting at `50 * b`, and adding it extends the inserted prefix. */
  lemma BatchStep(documents: seq<Document>, b: nat)
    requires b < |Batches(documents)|
    ensures b * 50 < |documents|
    ensures Batches(documents)[b] == documents[b * 50 .. Min(b * 50 + 50, |documents|)]
    ensures Batches(documents)[..b + 1] == Batches(documents)[..b] + [Batches(documents)[b]]
    ensures documents[..Min(b * 50 + 50, |documents|)] == documents[..Min(b * 50, |documents|)] + Batches(documents)[b]
  {
  }

  /** The index of the first batch Chroma rejects, or the number of batches. */
  function FirstRejected(batches: seq<seq<Document>>, accepts: seq<Document> -> bool): (j: nat)
    ensures j <= |batches|
    ensures forall b :: 0 <= b < j ==> accepts(batches[b])
    ensures j < |batches| ==> !accepts(batches[j])
    decreases |batches|
  {
    if batches == [] then 0
    else if !accepts(batches[0]) then 0
    else 1 + FirstRejected(batches[1..], accepts)
  }

  /** A scan that accepted every batch before `b` and either ran out of
      batches or hit a rejected one at `b` stopped at the first rejection. */
  lemma StoppedAtFirstRejected(batches: seq<seq<Document>>, accepts: seq<Document> -> bool, b: nat, ok: bool)
    requires b <= FirstRejected(batches, accepts) && b <= |batches|
    requires ok ==> b == |batches|
    requires !ok ==> b < |batches| && !accepts(batches[b])
    ensures b == FirstRejected(batches, accepts) && ok == (b == |batches|)
  {
  }

  // ---------------------------------------------------------------------
  // VectorStore: thresholded search

  /** The results whose score reaches `threshold`, in their original order. */
  function FilterByScore(results: seq<Scored>, threshold: real): (kept: seq<Scored>)
    ensures |kept| <= |results|
    decreases |results|
  {
    if results == [] then []
    else (if results[0].1 >= threshold then [results[0]] else []) + FilterByScore(results[1..], threshold)
  }

  /** `a` is `b` with some elements left out. */
  ghost predicate IsSubsequence<T>(a: seq<T>, b: seq<T>)
    decreases |b|
  {
    if a == [] then true
    else if b == [] then false
    else if a[0] == b[0] then IsSubsequence(a[1..], b[1..])
    else IsSubsequence(a, b[1..])
  }

  /** The filter keeps a result exactly when its score is at least the
      threshold (a score equal to it is kept), and keeps the input order. */
  lemma {:induction false} FilterByScoreKeeps(results: seq<Scored>, threshold: real)
    ensures forall x :: x in FilterByScore(results, threshold) <==> x in results && x.1 >= threshold
    ensures IsSubsequence(FilterByScore(results, threshold), results)
    ensures forall x :: multiset(FilterByScore(results, threshold))[x] == if x.1 >= threshold then multiset(results)[x] else 0
    decreases |results|
  {
    if results != [] {
      FilterByScoreKeeps(results[1..], threshold);
      assert results == [results[0]] + results[1..];
      var kept := FilterByScore(results, threshold);
      var head := if results[0].1 >= threshold then [results[0]] else [];
      assert kept == head + FilterByScore(results[1..], threshold);
      assert multiset(kept) == multiset(head) + multiset(FilterByScore(results[1..], threshold));
      assert multiset(results) == multiset([results[0]]) + multiset(results[1..]);
      if results[0].1 >= threshold {
        assert kept[0] == results[0] && kept[1..] == FilterByScore(results[1..], threshold);
      } else {
        assert kept == FilterByScore(results[1..], threshold);
        assert kept != [] ==> kept[0] in kept && kept[0] != results[0];
      }
    }
  }

  /** Filtering distributes over concatenation: each result is judged on its
      own score alone. */
  lemma {:induction false} FilterByScoreAppend(a: seq<Scored>, b: seq<Scored>, threshold: real)
    ensures FilterByScore(a + b, threshold) == FilterByScore(a, threshold) + FilterByScore(b, threshold)
    decreases |a|
  {
    if a != [] {
      assert (a + b)[0] == a[0] && (a + b)[1..] == a[1..] + b;
      FilterByScoreAppend(a[1..], b, threshold);
      var head := if a[0].1 >= threshold then [a[0]] else [];
      calc {
        FilterByScore(a + b, threshold);
        head + FilterByScore(a[1..] + b, threshold);
        head + (FilterByScore(a[1..], threshold) + FilterByScore(b, threshold));
        (head + FilterByScore(a[1..], threshold)) + FilterByScore(b, threshold);
      }
    } else {
      assert a + b == b;
    }
  }

  /** `similarity_search` given Chroma's answer (`None` when it raises): a
      missing or zero threshold falls back to the configured default, and a
      failed search gives no results. */
  function SearchResults(found: Option<seq<Scored>>, threshold: Option<real>, default: real): (results: seq<Scored>)
    ensures found.None? ==> results == []
    ensures found.Some? && Config.RealOr(threshold, default) != 0.0 ==>
      results == FilterByScore(found.value, Config.RealOr(threshold, default))
    ensures found.Some? && Config.RealOr(threshold, default) == 0.0 ==> results == found.value
    ensures found.Some? && (threshold.None? || threshold.value == 0.0) && default != 0.0 ==>
      results == FilterByScore(found.value, default)
    ensures found.Some? ==> forall x :: x in results ==> x in found.value
  {
    match found
    case None => []
    case Some(rs) =>
      var t := Config.RealOr(threshold, default);
      if t != 0.0 then FilterByScoreKeeps(rs, t); FilterByScore(rs, t) else rs
  }

  /** `VectorStore`: a Chroma collection seen through its nearest-neighbour
      search (`None` when it raises) and its acceptance of a batch. */
  class VectorStore {
    const nearest: (seq<Document>, string, int) -> Option<seq<Scored>>
    const accepts: seq<Document> -> bool
    /** The documents in the collection, in insertion order. */
    var stored: seq<Document>
    /** How many times the collection was persisted. */
    var persistCount: nat
    /** The batches Chroma accepted, in order. */
    ghost var added: seq<seq<Document>>

    /** Opening the store reopens the persisted collection: `persisted` is
        what an earlier session left in it. */
    constructor (nearest: (seq<Document>, string, int) -> Option<seq<Scored>>, accepts: seq<Document> -> bool,
                 persisted: seq<Document>)
      ensures this.nearest == nearest && this.accepts == accepts
      ensures stored == persisted && persistCount == 0 && added == []
    {
      this.nearest := nearest;
      this.accepts := accepts;
      stored, persistCount, added := persisted, 0, [];
    }

    /** `add_documents`: nothing for an empty list; otherwise the batches in
        order and one persist. A rejected batch raises: the batches before
        it stay in the collection (the first 50 documents per accepted
        batch) and nothing is persisted. */
    method AddDocuments(documents: seq<Document>) returns (ok: bool)
      modifies this
      ensures documents == [] ==> ok && stored == old(stored) && persistCount == old(persistCount) && added == old(added)
      ensures documents != [] ==>
        var bs := Batches(documents);
        var j := FirstRejected(bs, accepts);
        && added == old(added) + bs[..j]
        && stored == old(stored) + documents[..Min(j * 50, |documents|)]
        && ok == (j == |bs|)
        && persistCount == old(persistCount) + (if ok then 1 else 0)
    {
      if documents == [] {
        return true;
      }
      var inserted, accepted;
      inserted, accepted, ok := InsertBatches(documents);
      stored, added := stored + inserted, added + accepted;
      if ok {
        persistCount := persistCount + 1;
      }
    }

    /** The batch loop of `add_documents`: the documents Chroma takes, the
        batches it accepts, and whether every batch went in. */
    method InsertBatches(documents: seq<Document>) returns (inserted: seq<Document>, accepted: seq<seq<Document>>, ok: bool)
      ensures var bs := Batches(documents);
        var j := FirstRejected(bs, accepts);
        && accepted == bs[..j]
        && inserted == documents[..Min(j * 50, |documents|)]
        && ok == (j == |bs|)
    {
      ghost var bs := Batches(documents);
      var n := |documents|;
      inserted, accepted, ok := [], [], true;
      var b := 0;
      while b < (n + 49) / 50
        invariant b <= FirstRejected(bs, accepts) && b <= |bs|
        invariant accepted == bs[..b]
        invariant inserted == documents[..Min(b * 50, n)]
        invariant ok
      {
        var batch := documents[b * 50 .. Min(b * 50 + 50, n)];
        BatchStep(documents, b);
        if !accepts(batch) {
          ok := false;
          break;
        }
        inserted := inserted + batch;
        accepted := accepted + [batch];
        b := b + 1;
      }
      StoppedAtFirstRejected(bs, accepts, b, ok);
    }

    /** `similarity_search(query, k, threshold)` over the current collection;
        the fallback threshold is the configured similarity threshold. */
    function SimilaritySearch(query: string, k: int, threshold: Option<real>): (results: seq<Scored>)
      reads this
      ensures results == SearchResults(nearest(stored, query, k), threshold, Config.SimilarityThreshold)
      ensures nearest(stored, query, k).None? ==> results == []
      ensures nearest(stored, query, k).Some? ==>
        forall x :: x in results ==> x in nearest(stored, query, k).value
    {
      SearchResults(nearest(stored, query, k), threshold, Config.SimilarityThreshold)
    }
  }

  // ---------------------------------------------------------------------
  // RAGPipeline: context assembly

  /** The smallest room left in the budget for which a truncated document is
      still worth adding. */
  const MinTruncatedRoom := 100

  /** One block of the context: where it comes from, the text it carries and
      whether that text was cut to fit (and so ends in "..."). */
  datatype ContextEntry = ContextEntry(source: string, body: string, truncated: bool)

  /** One context block: a header naming the source, then the body, with
      "..." after a cut body. */
  function EntryText(e: ContextEntry): (text: string)
    ensures |text| == 9 + |e.source| + |e.body| + (if e.truncated then 3 else 0)
    ensures text[..8] == "Source: " && text[8..8 + |e.source|] == e.source && text[8 + |e.source|] == '\n'
    ensures text[9 + |e.source|..9 + |e.source| + |e.body|] == e.body
  {
    "Source: " + e.source + "\n" + e.body + (if e.truncated then "..." else "")
  }

  function EntryTexts(entries: seq<ContextEntry>): (texts: seq<string>)
    ensures |texts| == |entries|
  {
    seq(|entries|, i requires 0 <= i < |entries| => EntryText(entries[i]))
  }

  lemma EntryTextsCons(e: ContextEntry, rest: seq<ContextEntry>)
    ensures EntryTexts([e] + rest) == [EntryText(e)] + EntryTexts(rest)
  {
    var all, tail := EntryTexts([e] + rest), EntryTexts(rest);
    assert |all| == |[EntryText(e)] + tail|;
    forall i | 0 <= i < |all|
      ensures all[i] == ([EntryText(e)] + tail)[i]
    {
      if i > 0 {
        assert ([e] + rest)[i] == rest[i - 1];
      }
    }
  }

  /** The blocks `_prepare_context` keeps when `used` characters of the budget
      `maxLength` are spent: whole documents while their text fits, then the
      first one that does not, cut to the room left when more than 100
      characters remain, and nothing after it. */
  function Plan(retrieved: seq<Scored>, maxLength: int, used: int): (entries: seq<ContextEntry>)
    ensures |entries| <= |retrieved|
    decreases |retrieved|
  {
    if retrieved == [] then []
    else
      var doc := retrieved[0].0;
      if used + |doc.content| > maxLength then
        var remaining := maxLength - used;
        if remaining > MinTruncatedRoom then [ContextEntry(SourceName(doc), doc.content[..remaining], true)] else []
      else
        [ContextEntry(SourceName(doc), doc.content, false)] + Plan(retrieved[1..], maxLength, used + |doc.content|)
  }

  /** The context string built from the retrieved documents. */
  function Context(retrieved: seq<Scored>, maxLength: int): (context: string)
    ensures Plan(retrieved, maxLength, 0) == [] ==> context == ""
    ensures |Plan(retrieved, maxLength, 0)| == 1 ==> context == EntryText(Plan(retrieved, maxLength, 0)[0])
  {
    Text.Join("\n\n", EntryTexts(Plan(retrieved, maxLength, 0)))
  }

  /** Characters of document text in a list of blocks. */
  function BodyLength(entries: seq<ContextEntry>): nat
    decreases |entries|
  {
    if entries == [] then 0 else |entries[0].body| + BodyLength(entries[1..])
  }

  /** Characters of document text in a list of retrieved documents. */
  function ContentLength(retrieved: seq<Scored>): nat
    decreases |retrieved|
  {
    if retrieved == [] then 0 else |retrieved[0].0.content| + ContentLength(retrieved[1..])
  }

  /** How many blocks carry a whole document. */
  function WholeCount(entries: seq<ContextEntry>): nat
  {
    if entries != [] && entries[|entries| - 1].truncated then |entries| - 1 else |entries|
  }

  /** Blocks follow the retrieval order; each names its document's source and
      carries its text whole, except possibly the last, which carries a prefix. */
  lemma {:induction false} PlanFollowsRetrieval(retrieved: seq<Scored>, maxLength: int, used: int)
    ensures var p := Plan(retrieved, maxLength, used);
      forall i :: 0 <= i < |p| ==>
        && p[i].source == SourceName(retrieved[i].0)
        && p[i].body <= retrieved[i].0.content
        && (p[i].truncated ==> i == |p| - 1 && |p[i].body| < |retrieved[i].0.content|)
        && (!p[i].truncated ==> p[i].body == retrieved[i].0.content)
    decreases |retrieved|
  {
    if retrieved != [] {
      var doc := retrieved[0].0;
      if used + |doc.content| <= maxLength {
        var rest := retrieved[1..];
        PlanFollowsRetrieval(rest, maxLength, used + |doc.content|);
        var p := Plan(retrieved, maxLength, used);
        var q := Plan(rest, maxLength, used + |doc.content|);
        assert p == [ContextEntry(SourceName(doc), doc.content, false)] + q;
        forall i | 1 <= i < |p|
          ensures p[i].source == SourceName(retrieved[i].0)
          ensures p[i].body <= retrieved[i].0.content
          ensures p[i].truncated ==> i == |p| - 1 && |p[i].body| < |retrieved[i].0.content|
          ensures !p[i].truncated ==> p[i].body == retrieved[i].0.content
        {
          assert p[i] == q[i - 1] && retrieved[i] == rest[i - 1];
        }
      }
    }
  }

  /** The document text placed in the context never exceeds the budget, and
      a truncated block fills it exactly. */
  lemma {:induction false} PlanWithinBudget(retrieved: seq<Scored>, maxLength: int, used: int)
    ensures var p := Plan(retrieved, maxLength, used);
      p != [] ==> used + BodyLength(p) <= maxLength
    ensures var p := Plan(retrieved, maxLength, used);
      p != [] && p[|p| - 1].truncated ==> used + BodyLength(p) == maxLength
    decreases |retrieved|
  {
    if retrieved != [] {
      var doc := retrieved[0].0;
      if used + |doc.content| <= maxLength {
        var p := Plan(retrieved, maxLength, used);
        var q := Plan(retrieved[1..], maxLength, used + |doc.content|);
        PlanWithinBudget(retrieved[1..], maxLength, used + |doc.content|);
        assert p[1..] == q;
        if q != [] {
          assert p[|p| - 1] == q[|q| - 1];
        }
      }
    }
  }

  /** Unfolding `ContentLength` over a non-empty prefix. */
  lemma ContentLengthPrefix(retrieved: seq<Scored>, m: nat)
    requires 0 < m <= |retrieved|
    ensures ContentLength(retrieved[..m]) == |retrieved[0].0.content| + ContentLength(retrieved[1..][..m - 1])
  {
    assert retrieved[..m][0] == retrieved[0] && retrieved[..m][1..] == retrieved[1..][..m - 1];
  }

  /** A whole first block adds one to the count of whole blocks. */
  lemma WholeCountCons(e: ContextEntry, rest: seq<ContextEntry>)
    requires !e.truncated
    ensures WholeCount([e] + rest) == 1 + WholeCount(rest)
  {
    if rest != [] {
      assert ([e] + rest)[|rest|] == rest[|rest| - 1];
    }
  }

  /** The documents placed whole fit in the budget together. */
  lemma {:induction false} PlanWholePrefixFits(retrieved: seq<Scored>, maxLength: int, used: int)
    ensures WholeCount(Plan(retrieved, maxLength, used)) <= |retrieved|
    ensures var w := WholeCount(Plan(retrieved, maxLength, used));
      w > 0 ==> used + ContentLength(retrieved[..w]) <= maxLength
    decreases |retrieved|
  {
    if retrieved != [] {
      var doc := retrieved[0].0;
      var p := Plan(retrieved, maxLength, used);
      if used + |doc.content| <= maxLength {
        var rest := retrieved[1..];
        var q := Plan(rest, maxLength, used + |doc.content|);
        PlanWholePrefixFits(rest, maxLength, used + |doc.content|);
        var e := ContextEntry(SourceName(doc), doc.content, false);
        assert p == [e] + q;
        WholeCountCons(e, q);
        var w := WholeCount(q);
        ContentLengthPrefix(retrieved, w + 1);
        if w == 0 {
          assert rest[..0] == [];
        }
        assert used + ContentLength(retrieved[..w + 1]) == used + |doc.content| + ContentLength(rest[..w]);
      } else {
        assert WholeCount(p) == 0;
      }
    }
  }

  /** The document after the whole ones would overflow the budget, and it is
      added cut down exactly when more than 100 characters of room remain:
      the whole documents are the longest prefix of the retrieval that fits. */
  lemma {:induction false} PlanStopsAtOverflow(retrieved: seq<Scored>, maxLength: int, used: int)
    requires WholeCount(Plan(retrieved, maxLength, used)) < |retrieved|
    ensures var p := Plan(retrieved, maxLength, used);
      var w := WholeCount(p);
      && used + ContentLength(retrieved[..w + 1]) > maxLength
      && (|p| == w + 1 <==> maxLength - used - ContentLength(retrieved[..w]) > MinTruncatedRoom)
    decreases |retrieved|
  {
    var doc := retrieved[0].0;
    ContentLengthPrefix(retrieved, 1);
    assert retrieved[1..][..0] == [] && retrieved[..0] == [];
    if used + |doc.content| <= maxLength {
      var q := Plan(retrieved[1..], maxLength, used + |doc.content|);
      WholeCountCons(ContextEntry(SourceName(doc), doc.content, false), q);
      var w := WholeCount(q);
      PlanStopsAtOverflow(retrieved[1..], maxLength, used + |doc.content|);
      ContentLengthPrefix(retrieved, w + 2);
      ContentLengthPrefix(retrieved, w + 1);
    }
  }

  /** One step of `Plan` at position `i` with `used` characters spent. */
  lemma PlanStep(retrieved: seq<Scored>, maxLength: int, i: nat, used: int)
    requires i < |retrieved|
    ensures var doc := retrieved[i].0;
      used + |doc.content| <= maxLength ==>
        Plan(retrieved[i..], maxLength, used)
          == [ContextEntry(SourceName(doc), doc.content, false)] + Plan(retrieved[i + 1..], maxLength, used + |doc.content|)
    ensures var doc := retrieved[i].0;
      used + |doc.content| > maxLength && maxLength - used > MinTruncatedRoom ==>
        Plan(retrieved[i..], maxLength, used) == [ContextEntry(SourceName(doc), doc.content[..maxLength - used], true)]
    ensures var doc := retrieved[i].0;
      used + |doc.content| > maxLength && maxLength - used <= MinTruncatedRoom ==>
        Plan(retrieved[i..], maxLength, used) == []
  {
    assert retrieved[i..][0] == retrieved[i] && retrieved[i..][1..] == retrieved[i + 1..];
  }

  lemma EntryTextsSnoc(entries: seq<ContextEntry>, e: ContextEntry)
    ensures EntryTexts(entries + [e]) == EntryTexts(entries) + [EntryText(e)]
  {
    var all, front := EntryTexts(entries + [e]), EntryTexts(entries);
    assert |all| == |front + [EntryText(e)]|;
    forall i | 0 <= i < |all|
      ensures all[i] == (front + [EntryText(e)])[i]
    {
      if i < |entries| {
        assert (entries + [e])[i] == entries[i];
      }
    }
  }

  /** How a block is rendered, grouped as `_prepare_context` builds it. */
  lemma EntryTextShape(source: string, body: string, truncated: bool)
    ensures EntryText(ContextEntry(source, body, truncated))
      == "Source: " + source + "\n" + (if truncated then body + "..." else body)
  {
  }

  /** `_prepare_context`: the blocks of `Plan`, each rendered as
      "Source: <source>" and its text on the next line, joined by blank lines. */
  method PrepareContext(retrieved: seq<Scored>, maxContextLength: int) returns (context: string)
    ensures context == Context(retrieved, maxContextLength)
  {
    var contextParts: seq<string> := [];
    ghost var entries: seq<ContextEntry> := [];
    var currentLength := 0;
    var i := 0;
    while i < |retrieved|
      invariant 0 <= i <= |retrieved|
      invariant Plan(retrieved, maxContextLength, 0) == entries + Plan(retrieved[i..], maxContextLength, currentLength)
      invariant contextParts == EntryTexts(entries)
    {
      var doc := retrieved[i].0;
      var docText := doc.content;
      PlanStep(retrieved, maxContextLength, i, currentLength);
      if currentLength + |docText| > maxContextLength {
        var remaining := maxContextLength - currentLength;
        if remaining > MinTruncatedRoom {
          var e := ContextEntry(SourceName(doc), docText[..remaining], true);
          assert Plan(retrieved[i..], maxContextLength, currentLength) == [e];
          EntryTextShape(e.source, e.body, true);
          EntryTextsSnoc(entries, e);
          docText := docText[..remaining] + "...";
          contextParts := contextParts + ["Source: " + SourceName(doc) + "\n" + docText];
          entries := entries + [e];
        } else {
          assert Plan(retrieved[i..], maxContextLength, currentLength) == [];
          assert entries + [] == entries;
        }
        assert entries == Plan(retrieved, maxContextLength, 0);
        break;
      }
      var e := ContextEntry(SourceName(doc), docText, false);
      ghost var rest := Plan(retrieved[i + 1..], maxContextLength, currentLength + |docText|);
      assert entries + ([e] + rest) == (entries + [e]) + rest;
      EntryTextShape(e.source, e.body, false);
      EntryTextsSnoc(entries, e);
      contextParts := contextParts + ["Source: " + SourceName(doc) + "\n" + docText];
      entries := entries + [e];
      currentLength := currentLength + |docText|;
      i := i + 1;
    }
    if i == |retrieved| {
      assert retrieved[i..] == [];
      assert entries + [] == entries;
    }
    assert contextParts == EntryTexts(Plan(retrieved, maxContextLength, 0));
    context := Text.Join("\n\n", contextParts);
  }

  /** The budget covers document text only: the "Source:" header comes on
      top of it. A single document exactly as long as the budget is taken
      whole, and the context exceeds the budget by the header's length. */
  lemma ContextExceedsBudget(content: string, source: string, score: real, maxLength: int)
    requires |content| == maxLength
    ensures var doc := Document(content, map["source" := Str(source)]);
      |Context([(doc, score)], maxLength)| == maxLength + 9 + |source|
  {
    var doc := Document(content, map["source" := Str(source)]);
    var retrieved := [(doc, score)];
    assert retrieved[1..] == [];
    var p := Plan(retrieved, maxLength, 0);
    assert p == [ContextEntry(source, content, false)];
    assert EntryText(p[0]) == "Source: " + source + "\n" + content;
    assert EntryTexts(p) == [EntryText(p[0])];
  }

  // ---------------------------------------------------------------------
  // RAGPipeline: prompt, confidence and sources

  const PromptHead := "You are an expert maintenance advisor for commercial trucking fleets. Use the provided context to answer the user's question accurately and helpfully.\n\nContext:\n"
  const PromptMiddle := "\n\nQuestion: "
  const PromptTail := "\n\nInstructions:\n- Provide a detailed, practical answer based on the context\n- Focus on actionable maintenance advice\n- Include specific procedures, costs, or timeframes when available\n- If the question relates to safety or compliance, emphasize those aspects\n- If the context doesn't contain enough information, say so clearly\n- Cite sources when referencing specific information\n\nAnswer:"

  /** The answer is limited to this many output tokens. */
  const AnswerMaxTokens := 1000

  /** The prompt `_generate_answer` sends to the language model. */
  function AnswerPrompt(question: string, context: string): (prompt: string)
    ensures |prompt| == |PromptHead| + |context| + |PromptMiddle| + |question| + |PromptTail|
  {
    PromptHead + context + PromptMiddle + question + PromptTail
  }

  /** Each part of a five-part concatenation sits at its own offset. */
  lemma ConcatenationParts(a: string, b: string, c: string, d: string, e: string)
    ensures var p := a + b + c + d + e;
      var i := |a| + |b| + |c|;
      && p[..|a|] == a
      && p[|a|..|a| + |b|] == b
      && p[i..i + |d|] == d
      && p[i + |d|..] == e
  {
    var p := a + b + c + d + e;
    assert p == a + (b + (c + (d + e)));
    assert p[|a|..] == b + (c + (d + e));
    assert p[|a| + |b| + |c|..] == d + e;
  }

  /** The prompt carries the context and the question verbatim at fixed
      positions, so different contexts or questions give different prompts. */
  lemma PromptCarriesContextAndQuestion(question: string, context: string)
    ensures var p := AnswerPrompt(question, context);
      var c := |PromptHead|;
      var q := c + |context| + |PromptMiddle|;
      && p[..c] == PromptHead
      && p[c..c + |context|] == context
      && p[q..q + |question|] == question
      && p[q + |question|..] == PromptTail
  {
    ConcatenationParts(PromptHead, context, PromptMiddle, question, PromptTail);
  }

  /** The sum of the similarity scores. */
  function ScoreSum(retrieved: seq<Scored>): real
    decreases |retrieved|
  {
    if retrieved == [] then 0.0 else retrieved[0].1 + ScoreSum(retrieved[1..])
  }

  /** The mean similarity score of a non-empty retrieval. */
  function MeanScore(retrieved: seq<Scored>): real
    requires retrieved != []
  {
    ScoreSum(retrieved) / |retrieved| as real
  }

  function Distance(a: real, b: real): real
  {
    if a < b then b - a else a - b
  }

  /** `_calculate_confidence`: the mean score clamped to [0, 1], and 0 when
      nothing was retrieved. */
  function CalculateConfidence(retrieved: seq<Scored>): (confidence: real)
    ensures 0.0 <= confidence <= 1.0
    ensures retrieved == [] ==> confidence == 0.0
    ensures retrieved != [] && MeanScore(retrieved) >= 1.0 ==> confidence == 1.0
    ensures retrieved != [] && MeanScore(retrieved) <= 0.0 ==> confidence == 0.0
    ensures retrieved != [] && 0.0 <= MeanScore(retrieved) <= 1.0 ==> confidence == MeanScore(retrieved)
  {
    if retrieved == [] then 0.0
    else
      var average := ScoreSum(retrieved) / |retrieved| as real;
      if average > 1.0 then 1.0 else if average < 0.0 then 0.0 else average
  }

  lemma {:induction false} ScoreSumBounds(retrieved: seq<Scored>, lo: real, hi: real)
    requires forall i :: 0 <= i < |retrieved| ==> lo <= retrieved[i].1 <= hi
    ensures |retrieved| as real * lo <= ScoreSum(retrieved) <= |retrieved| as real * hi
    decreases |retrieved|
  {
    if retrieved != [] {
      ScoreSumBounds(retrieved[1..], lo, hi);
      var n := |retrieved| as real;
      assert n * lo == (n - 1.0) * lo + lo;
      assert n * hi == (n - 1.0) * hi + hi;
    }
  }

  lemma MeanBounds(sum: real, n: real, lo: real, hi: real)
    requires n > 0.0 && n * lo <= sum <= n * hi
    ensures lo <= sum / n <= hi
  {
  }

  /** When every score lies in [lo, hi] within [0, 1], no clamping happens:
      the confidence is the mean score, and it lies in [lo, hi] too. */
  lemma ConfidenceIsMeanScore(retrieved: seq<Scored>, lo: real, hi: real)
    requires retrieved != [] && 0.0 <= lo <= hi <= 1.0
    requires forall i :: 0 <= i < |retrieved| ==> lo <= retrieved[i].1 <= hi
    ensures CalculateConfidence(retrieved) == ScoreSum(retrieved) / |retrieved| as real
    ensures lo <= CalculateConfidence(retrieved) <= hi
  {
    ScoreSumBounds(retrieved, lo, hi);
    MeanBounds(ScoreSum(retrieved), |retrieved| as real, lo, hi);
  }

  /** For any retrieval, the confidence is the point of [0, 1] nearest to the
      mean score: no other value in [0, 1] is closer to it. */
  lemma ConfidenceNearestToMean(retrieved: seq<Scored>, x: real)
    requires retrieved != [] && 0.0 <= x <= 1.0
    ensures Distance(CalculateConfidence(retrieved), MeanScore(retrieved)) <= Distance(x, MeanScore(retrieved))
  {
  }

  /** Two documents scored 0.8 and 0.6 give confidence 0.7. */
  lemma ConfidenceOfTwoScores(a: Document, b: Document)
    ensures CalculateConfidence([(a, 0.8), (b, 0.6)]) == 0.7
  {
    var r: seq<Scored> := [(a, 0.8), (b, 0.6)];
    assert r[1..] == [(b, 0.6)] && |r[1..][1..]| == 0;
    assert ScoreSum(r[1..][1..]) == 0.0;
    assert ScoreSum(r[1..]) == 0.6;
    assert ScoreSum(r) == 1.4;
  }

  /** Source excerpts are cut after this many characters. */
  const ExcerptLength := 200

  /** The content shown for a source: all of it, or its first 200 characters
      followed by "..." when it is longer. */
  function Excerpt(content: string): (excerpt: string)
    ensures |content| <= ExcerptLength ==> excerpt == content
    ensures |content| > ExcerptLength ==>
      |excerpt| == ExcerptLength + 3 && excerpt[..ExcerptLength] == content[..ExcerptLength] && excerpt[ExcerptLength..] == "..."
  {
    if |content| > ExcerptLength then content[..ExcerptLength] + "..." else content
  }

  /** One entry of the response's source list. */
  datatype SourceInfo = SourceInfo(id: int, content: string, metadata: Metadata, similarityScore: real)

  /** The entry for the `i`-th retrieved document (counting from 0). */
  function SourceEntry(i: nat, doc: Scored): (info: SourceInfo)
    ensures info.id == i + 1 && info.metadata == doc.0.metadata && info.similarityScore == doc.1
    ensures info.content == Excerpt(doc.0.content)
  {
    SourceInfo(i + 1, Excerpt(doc.0.content), doc.0.metadata, doc.1)
  }

  /** `_format_sources`: one entry per retrieved document, in order, numbered
      from 1, with an excerpt of its text, its metadata and its score. */
  method FormatSources(retrieved: seq<Scored>) returns (sources: seq<SourceInfo>)
    ensures |sources| == |retrieved|
    ensures forall i :: 0 <= i < |retrieved| ==>
      sources[i].id == i + 1 && sources[i] == SourceEntry(i, retrieved[i])
  {
    sources := [];
    for i := 0 to |retrieved|
      invariant |sources| == i
      invariant forall j :: 0 <= j < i ==> sources[j] == SourceEntry(j, retrieved[j])
    {
      var (doc, score) := retrieved[i];
      var content := if |doc.content| > ExcerptLength then doc.content[..ExcerptLength] + "..." else doc.content;
      sources := sources + [SourceInfo(i + 1, content, doc.metadata, score)];
    }
  }

  // ---------------------------------------------------------------------
  // RAGPipeline: the query path

  const NoMatchAnswer := "I couldn't find relevant information to answer your question. Please try rephrasing or asking about a different topic."
  const QueryErrorAnswer := "I encountered an error while processing your question. Please try again."

  datatype QueryResponse = QueryResponse(answer: string, sources: seq<SourceInfo>, confidence: real)

  class RAGPipeline {
    const store: VectorStore
    const llm: LanguageModel
    const maxContextLength: int

    /** A missing or zero context length falls back to the configured 4000. */
    constructor (store: VectorStore, llm: LanguageModel, maxContextLength: Option<int>)
      ensures this.store == store && this.llm == llm
      ensures this.maxContextLength == Config.IntOr(maxContextLength, Config.MaxContextLength)
    {
      this.store := store;
      this.llm := llm;
      this.maxContextLength := Config.IntOr(maxContextLength, Config.MaxContextLength);
    }

    /** `_generate_answer`: one call to the language model with the answer
        prompt and a 1000-token limit. */
    method GenerateAnswer(question: string, context: string) returns (answer: Option<string>)
      modifies llm
      ensures answer == llm.respond(AnswerPrompt(question, context), AnswerMaxTokens)
      ensures llm.prompts == old(llm.prompts) + [AnswerPrompt(question, context)]
    {
      var prompt := AnswerPrompt(question, context);
      answer := llm.Generate(prompt, AnswerMaxTokens);
    }

    /** `query`: search with the default threshold; with no result, a fixed
        answer and no call to the language model; otherwise one prompt built
        from the budgeted context, whose reply becomes the answer with the
        confidence and, when asked for, the sources. A raising language model
        turns into a fixed error answer. */
    method Query(question: string, k: int, includeSources: bool) returns (response: QueryResponse)
      modifies llm
      ensures var docs := store.SimilaritySearch(question, k, None);
        docs == [] ==> response == QueryResponse(NoMatchAnswer, [], 0.0) && llm.prompts == old(llm.prompts)
      ensures var docs := store.SimilaritySearch(question, k, None);
        var prompt := AnswerPrompt(question, Context(docs, maxContextLength));
        var reply := llm.respond(prompt, AnswerMaxTokens);
        docs != [] ==>
          && llm.prompts == old(llm.prompts) + [prompt]
          && (reply.None? ==> response == QueryResponse(QueryErrorAnswer, [], 0.0))
          && (reply.Some? ==>
                && response.answer == reply.value
                && response.confidence == CalculateConfidence(docs)
                && (includeSources ==>
                      (|response.sources| == |docs| && forall i :: 0 <= i < |docs| ==> response.sources[i] == SourceEntry(i, docs[i])))
                && (!includeSources ==> response.sources == []))
      ensures 0.0 <= response.confidence <= 1.0
    {
      var retrieved := store.SimilaritySearch(question, k, None);
      if retrieved == [] {
        return QueryResponse(NoMatchAnswer, [], 0.0);
      }
      var context := PrepareContext(retrieved, maxContextLength);
      var answer := GenerateAnswer(question, context);
      if answer.None? {
        return QueryResponse(QueryErrorAnswer, [], 0.0);
      }
      var sources := [];
      if includeSources {
        sources := FormatSources(retrieved);
      }
      response := QueryResponse(answer.value, sources, CalculateConfidence(retrieved));
    }
  }

  /** The pipeline as the application builds it: the Gemini model with the
      default context length. `GoogleLLM.generate` never raises, so a failing
      Gemini call yields the apology as the answer, still with the mean
      confidence and the sources; the query's own error answer is reached
      only through a language model that raises. */
  method QueryWithGemini(store: VectorStore, client: Client, question: string, k: int, includeSources: bool)
    returns (response: QueryResponse)
    ensures var docs := store.SimilaritySearch(question, k, None);
      docs == [] ==> response == QueryResponse(NoMatchAnswer, [], 0.0)
    ensures var docs := store.SimilaritySearch(question, k, None);
      var prompt := AnswerPrompt(question, Context(docs, Config.MaxContextLength));
      docs != [] ==>
        && response.answer == GoogleGenerate(client, prompt, AnswerMaxTokens)
        && response.confidence == CalculateConfidence(docs)
        && (includeSources ==>
              |response.sources| == |docs| && forall i :: 0 <= i < |docs| ==> response.sources[i] == SourceEntry(i, docs[i]))
        && (!includeSources ==> response.sources == [])
    ensures var docs := store.SimilaritySearch(question, k, None);
      var prompt := AnswerPrompt(question, Context(docs, Config.MaxContextLength));
      docs != [] && client(prompt, GenerationConfig(AnswerMaxTokens, 0.1, 0.8)).None? ==>
        response.answer == ApologyAnswer
  {
    var llm := new LanguageModel((prompt, maxTokens) => Some(GoogleGenerate(client, prompt, maxTokens)));
    var pipeline := new RAGPipeline(store, llm, None);
    response := pipeline.Query(question, k, includeSources);
  }
}
