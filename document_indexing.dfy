/** The indexing use case: it gives a document or chunk an id when the
    caller has none, embeds chunk texts when asked to (one chunk at a time,
    or in batches of sixty on the bulk path), and hands the result to the
    repository. The repository and the embedding service are parameters. */
module DocumentIndexing {
  import opened Wrappers
  import opened Documents
  import opened ElasticsearchAdaptor

  /** The embedding service as the use case calls it: one text, or a list
      of texts answered by one vector each. */
  datatype Embedder = Embedder(
    generateEmbedding: string -> Outcome<seq<real>>,
    embedContent: seq<string> -> Outcome<seq<seq<real>>>)

  /** The repository's single-item index calls. */
  datatype Repository = Repository(
    indexDocument: (DoclingDocument, string, Option<string>) -> Outcome<IndexResponse>,
    indexChunk: (DocChunk, string, Option<string>, Option<string>) -> Outcome<IndexResponse>)

  /** The id an item is indexed under: the caller's, or a fresh one when
      the caller gave none. */
  function ResolveId(id: Option<string>, newId: string): (r: string)
    ensures id.Some? ==> r == id.value
    ensures id.None? ==> r == newId
  {
    if id.Some? then id.value else newId
  }

  /** index_document: the document goes to the repository unchanged, under
      the caller's id or a fresh one. */
  function IndexDocument(repo: Repository, document: DoclingDocument, documentId: Option<string>,
                         indexName: Option<string>, newId: string): (r: Outcome<IndexResponse>)
    ensures documentId.Some? ==> r == repo.indexDocument(document, documentId.value, indexName)
    ensures documentId.None? ==> r == repo.indexDocument(document, newId, indexName)
  {
    repo.indexDocument(document, ResolveId(documentId, newId), indexName)
  }

  /** index_chunk embeds the chunk first exactly when embedding is asked
      for, a service is configured and the chunk has no vector yet. */
  predicate EmbedsChunk(generate: bool, embedder: Option<Embedder>, c: DocChunk) {
    generate && embedder.Some? && c.vector.None?
  }

  /** index_chunk: the chunk (updated in place on the Python side, returned
      here) gains the service's vector when it is embedded, and nothing else
      about it changes; a failing service call propagates; the repository
      sees the chunk as updated, under the caller's id or a fresh one. */
  method IndexChunk(repo: Repository, embedder: Option<Embedder>, chunk: DocChunk, chunkId: Option<string>,
                    documentId: Option<string>, indexName: Option<string>, generateEmbedding: bool, newId: string)
    returns (updated: DocChunk, r: Outcome<IndexResponse>)
    ensures updated.(vector := chunk.vector) == chunk
    ensures !EmbedsChunk(generateEmbedding, embedder, chunk) ==>
      updated == chunk && r == repo.indexChunk(chunk, ResolveId(chunkId, newId), documentId, indexName)
    ensures EmbedsChunk(generateEmbedding, embedder, chunk) ==>
      match embedder.value.generateEmbedding(chunk.text)
      case Raised(e) => updated == chunk && r == Raised(e)
      case Ok(v) =>
        updated.vector == Some(v) && r == repo.indexChunk(updated, ResolveId(chunkId, newId), documentId, indexName)
  {
    var id := ResolveId(chunkId, newId);
    updated := chunk;
    if generateEmbedding && embedder.Some? && chunk.vector.None? {
      var v := embedder.value.generateEmbedding(chunk.text);
      if v.Raised? {
        return chunk, Raised(v.error);
      }
      updated := updated.(vector := Some(v.value));
    }
    r := repo.indexChunk(updated, id, documentId, indexName);
  }

  // ---------------------------------------------------------------------
  // bulk_index_document_with_chunks
  // ---------------------------------------------------------------------

  const BatchSize: nat := 60

  /** The texts of the batch starting at `start`: up to sixty consecutive
      chunks. */
  function BatchTexts(cs: seq<DocChunk>, start: nat): (texts: seq<string>)
    requires start <= |cs|
    ensures |texts| == (if |cs| - start < BatchSize then |cs| - start else BatchSize)
    ensures forall j :: 0 <= j < |texts| ==> texts[j] == cs[start + j].text
  {
    var n := if |cs| - start < BatchSize then |cs| - start else BatchSize;
    seq(n, j requires 0 <= j < n => cs[start + j].text)
  }

  /** The chunks once a batch's vectors are assigned: the chunk at offset j
      of the batch gets vector j, as far as both lists go (a zip). */
  function Assigned(cs: seq<DocChunk>, start: nat, vectors: seq<seq<real>>): (r: seq<DocChunk>)
    ensures |r| == |cs|
  {
    seq(|cs|, k requires 0 <= k < |cs| =>
      if start <= k < start + BatchSize && k - start < |vectors| then cs[k].(vector := Some(vectors[k - start])) else cs[k])
  }

  /** What the batches from `start` on leave behind: the chunks, the text
      lists sent to the service in order, and the error that stopped the
      run, if any. */
  datatype EmbedRun = EmbedRun(chunks: seq<DocChunk>, calls: seq<seq<string>>, error: Option<string>)

  function EmbedFrom(cs: seq<DocChunk>, embed: seq<string> -> Outcome<seq<seq<real>>>, start: nat): EmbedRun
    decreases |cs| - start
  {
    if start >= |cs| then EmbedRun(cs, [], None)
    else
      var texts := BatchTexts(cs, start);
      match embed(texts)
      case Raised(e) => EmbedRun(cs, [texts], Some(e))
      case Ok(vs) =>
        var rest := EmbedFrom(Assigned(cs, start, vs), embed, start + BatchSize);
        EmbedRun(rest.chunks, [texts] + rest.calls, rest.error)
  }

  /** One successful batch: the run from `start` is that batch's call
      followed by the run over the updated chunks from the next batch on. */
  lemma EmbedFromStep(cs: seq<DocChunk>, embed: seq<string> -> Outcome<seq<seq<real>>>, start: nat)
    requires start < |cs| && embed(BatchTexts(cs, start)).Ok?
    ensures var texts := BatchTexts(cs, start);
      var rest := EmbedFrom(Assigned(cs, start, embed(texts).value), embed, start + BatchSize);
      EmbedFrom(cs, embed, start) == EmbedRun(rest.chunks, [texts] + rest.calls, rest.error)
  {
  }

  /** Embedding changes vectors only, and only from `start` on, even when
      a batch fails: the list keeps its length and every chunk keeps its id,
      text, metadata and document. */
  lemma {:induction false} EmbedFromKeepsOthers(cs: seq<DocChunk>, embed: seq<string> -> Outcome<seq<seq<real>>>, start: nat)
    ensures var run := EmbedFrom(cs, embed, start);
      |run.chunks| == |cs|
      && (forall k :: 0 <= k < |cs| ==> run.chunks[k].(vector := cs[k].vector) == cs[k])
      && (forall k :: 0 <= k < |cs| && k < start ==> run.chunks[k] == cs[k])
    decreases |cs| - start
  {
    if start < |cs| {
      var texts := BatchTexts(cs, start);
      if embed(texts).Ok? {
        var next := Assigned(cs, start, embed(texts).value);
        EmbedFromKeepsOthers(next, embed, start + BatchSize);
      }
    }
  }

  /** Batch texts only read the texts, which assigning vectors leaves alone. */
  lemma AssignedKeepsTexts(cs: seq<DocChunk>, start: nat, vs: seq<seq<real>>, from: nat)
    requires from <= |cs|
    ensures BatchTexts(Assigned(cs, start, vs), from) == BatchTexts(cs, from)
  {
  }

  /** Where batch b (counted from `start`) begins. */
  function BatchStart(start: nat, b: nat): nat {
    start + b * 60
  }

  /** The service is called once per batch, in order, with exactly that
      batch's texts: call b holds the texts of the sixty chunks from
      start + 60b on. A run that ends without error has covered every
      chunk. */
  lemma {:induction false} EmbedFromCalls(cs: seq<DocChunk>, embed: seq<string> -> Outcome<seq<seq<real>>>, start: nat)
    ensures var run := EmbedFrom(cs, embed, start);
      (forall b :: 0 <= b < |run.calls| ==>
        BatchStart(start, b) < |cs| && run.calls[b] == BatchTexts(cs, BatchStart(start, b)))
      && (run.error.None? ==> BatchStart(start, |run.calls|) >= |cs|)
    decreases |cs| - start
  {
    if start < |cs| {
      var texts := BatchTexts(cs, start);
      if embed(texts).Ok? {
        var next := Assigned(cs, start, embed(texts).value);
        EmbedFromCalls(next, embed, start + BatchSize);
        var run := EmbedFrom(cs, embed, start);
        var rest := EmbedFrom(next, embed, start + BatchSize);
        assert run.calls == [texts] + rest.calls;
        forall b | 1 <= b < |run.calls|
          ensures BatchStart(start, b) < |cs| && run.calls[b] == BatchTexts(cs, BatchStart(start, b))
        {
          assert BatchStart(start + BatchSize, b - 1) == BatchStart(start, b);
          AssignedKeepsTexts(cs, start, embed(texts).value, BatchStart(start, b));
        }
        assert BatchStart(start + BatchSize, |rest.calls|) == BatchStart(start, |run.calls|);
      }
    }
  }

  /** The chunk at offset j of batch b once every batch call has succeeded:
      it carries vector j of the answer for its batch, when the answer is
      that long, and is unchanged otherwise. */
  function Slot(cs: seq<DocChunk>, embed: seq<string> -> Outcome<seq<seq<real>>>, start: nat, b: nat, j: nat): DocChunk
    requires j < 60 && BatchStart(start, b) + j < |cs|
  {
    var first := BatchStart(start, b);
    var answer := embed(BatchTexts(cs, first));
    var vs := if answer.Ok? then answer.value else [];
    if j < |vs| then cs[first + j].(vector := Some(vs[j])) else cs[first + j]
  }

  /** The first batch's slots are set by its own answer. */
  lemma FirstBatchSlots(cs: seq<DocChunk>, embed: seq<string> -> Outcome<seq<seq<real>>>, start: nat)
    requires start < |cs| && embed(BatchTexts(cs, start)).Ok?
    ensures var next := Assigned(cs, start, embed(BatchTexts(cs, start)).value);
      forall j :: 0 <= j < 60 && start + j < |cs| ==> next[start + j] == Slot(cs, embed, start, 0, j)
  {
  }

  /** A later batch's slot reads the same whether the first batch's
      vectors are assigned or not. */
  lemma LaterBatchSlot(cs: seq<DocChunk>, embed: seq<string> -> Outcome<seq<seq<real>>>, start: nat, b: nat, j: nat)
    requires start < |cs| && embed(BatchTexts(cs, start)).Ok?
    requires 1 <= b && j < 60 && BatchStart(start, b) + j < |cs|
    ensures var next := Assigned(cs, start, embed(BatchTexts(cs, start)).value);
      Slot(next, embed, start + BatchSize, b - 1, j) == Slot(cs, embed, start, b, j)
  {
    var next := Assigned(cs, start, embed(BatchTexts(cs, start)).value);
    assert BatchStart(start + BatchSize, b - 1) == BatchStart(start, b);
    AssignedKeepsTexts(cs, start, embed(BatchTexts(cs, start)).value, BatchStart(start, b));
  }

  /** The first batch of a successful step lands in the run unchanged by
      the later batches. */
  lemma FirstBatchPlaced(cs: seq<DocChunk>, embed: seq<string> -> Outcome<seq<seq<real>>>, start: nat, j: nat)
    requires start < |cs| && embed(BatchTexts(cs, start)).Ok?
    requires j < 60 && start + j < |cs|
    ensures |EmbedFrom(cs, embed, start).chunks| == |cs|
    ensures EmbedFrom(cs, embed, start).chunks[start + j] == Slot(cs, embed, start, 0, j)
  {
    var next := Assigned(cs, start, embed(BatchTexts(cs, start)).value);
    EmbedFromStep(cs, embed, start);
    FirstBatchSlots(cs, embed, start);
    EmbedFromKeepsOthers(next, embed, start + BatchSize);
  }

  /** A later batch's slot in the run is its slot in the rest of the run. */
  lemma LaterBatchPlaced(cs: seq<DocChunk>, embed: seq<string> -> Outcome<seq<seq<real>>>, start: nat, b: nat, j: nat)
    requires start < |cs| && embed(BatchTexts(cs, start)).Ok?
    requires 1 <= b && j < 60 && BatchStart(start, b) + j < |cs|
    requires var next := Assigned(cs, start, embed(BatchTexts(cs, start)).value);
      var rest := EmbedFrom(next, embed, start + BatchSize);
      BatchStart(start, b) + j < |rest.chunks|
      && rest.chunks[BatchStart(start + BatchSize, b - 1) + j] == Slot(next, embed, start + BatchSize, b - 1, j)
    ensures BatchStart(start, b) + j < |EmbedFrom(cs, embed, start).chunks|
    ensures EmbedFrom(cs, embed, start).chunks[BatchStart(start, b) + j] == Slot(cs, embed, start, b, j)
  {
    EmbedFromStep(cs, embed, start);
    LaterBatchSlot(cs, embed, start, b, j);
    assert BatchStart(start + BatchSize, b - 1) == BatchStart(start, b);
  }

  /** When no batch fails, the chunk at position start + 60b + j gets
      element j of the vectors for batch b (so chunk k gets element k mod
      60 of batch k div 60 when start is 0); the chunks beyond a short
      answer keep their vector. */
  lemma {:induction false} EmbedFromPlaces(cs: seq<DocChunk>, embed: seq<string> -> Outcome<seq<seq<real>>>, start: nat)
    requires EmbedFrom(cs, embed, start).error.None?
    ensures var run := EmbedFrom(cs, embed, start);
      |run.chunks| == |cs|
      && forall b: nat, j: nat :: j < 60 && BatchStart(start, b) + j < |cs| ==>
           run.chunks[BatchStart(start, b) + j] == Slot(cs, embed, start, b, j)
    decreases |cs| - start
  {
    EmbedFromLength(cs, embed, start);
    if start < |cs| {
      var vs := embed(BatchTexts(cs, start)).value;
      var next := Assigned(cs, start, vs);
      EmbedFromStep(cs, embed, start);
      EmbedFromPlaces(next, embed, start + BatchSize);
      forall b: nat, j: nat | j < 60 && BatchStart(start, b) + j < |cs|
        ensures EmbedFrom(cs, embed, start).chunks[BatchStart(start, b) + j] == Slot(cs, embed, start, b, j)
      {
        if b == 0 {
          FirstBatchPlaced(cs, embed, start, j);
        } else {
          assert BatchStart(start + BatchSize, b - 1) + j == BatchStart(start, b) + j;
          LaterBatchPlaced(cs, embed, start, b, j);
        }
      }
    }
  }

  lemma {:induction false} EmbedFromLength(cs: seq<DocChunk>, embed: seq<string> -> Outcome<seq<seq<real>>>, start: nat)
    ensures |EmbedFrom(cs, embed, start).chunks| == |cs|
    decreases |cs| - start
  {
    if start < |cs| && embed(BatchTexts(cs, start)).Ok? {
      EmbedFromLength(Assigned(cs, start, embed(BatchTexts(cs, start)).value), embed, start + BatchSize);
    }
  }

  /** The zip of a batch with its vectors: chunk j of the batch gets vector
      j, as far as both lists go. */
  method AssignBatch(chunks: array<DocChunk>, start: nat, vs: seq<seq<real>>)
    requires start <= chunks.Length
    modifies chunks
    ensures chunks[..] == Assigned(old(chunks[..]), start, vs)
  {
    var n := if chunks.Length - start < BatchSize then chunks.Length - start else BatchSize;
    var batch := chunks[start..start + n];
    var j := 0;
    while j < |batch| && j < |vs|
      invariant 0 <= j <= |batch| && j <= |vs|
      invariant forall k :: 0 <= k < chunks.Length ==>
        chunks[k] == (if start <= k < start + j then old(chunks[k]).(vector := Some(vs[k - start])) else old(chunks[k]))
    {
      chunks[start + j] := batch[j].(vector := Some(vs[j]));
      j := j + 1;
    }
  }

  /** One batch of the bulk path: the texts of the sixty chunks from `i`
      on go to the service; its vectors are zipped onto those chunks, or
      its error is handed back with the chunks untouched. */
  method EmbedOneBatch(embed: seq<string> -> Outcome<seq<seq<real>>>, chunks: array<DocChunk>, i: nat)
    returns (texts: seq<string>, error: Option<string>)
    requires i < chunks.Length
    modifies chunks
    ensures texts == BatchTexts(old(chunks[..]), i)
    ensures error == (if embed(texts).Raised? then Some(embed(texts).error) else None)
    ensures chunks[..] == (if embed(texts).Raised? then old(chunks[..]) else Assigned(old(chunks[..]), i, embed(texts).value))
  {
    var end := if chunks.Length - i < BatchSize then chunks.Length else i + BatchSize;
    var batch := chunks[i..end];
    texts := seq(|batch|, j requires 0 <= j < |batch| => batch[j].text);
    assert texts == BatchTexts(chunks[..], i);
    var embeddings := embed(texts);
    if embeddings.Raised? {
      return texts, Some(embeddings.error);
    }
    AssignBatch(chunks, i, embeddings.value);
    error := None;
  }

  /** The batch loop of the bulk path: sixty chunks at a time, one service
      call per batch; a failing call stops the loop with its error. */
  method EmbedInBatches(embed: seq<string> -> Outcome<seq<seq<real>>>, chunks: array<DocChunk>)
    returns (calls: seq<seq<string>>, error: Option<string>)
    modifies chunks
    ensures var run := EmbedFrom(old(chunks[..]), embed, 0);
      chunks[..] == run.chunks && calls == run.calls && error == run.error
  {
    ghost var whole := EmbedFrom(chunks[..], embed, 0);
    calls := [];
    var i := 0;
    while i < chunks.Length
      invariant whole.calls == calls + EmbedFrom(chunks[..], embed, i).calls
      invariant whole.chunks == EmbedFrom(chunks[..], embed, i).chunks
      invariant whole.error == EmbedFrom(chunks[..], embed, i).error
      decreases chunks.Length - i
    {
      ghost var before := chunks[..];
      var texts, failure := EmbedOneBatch(embed, chunks, i);
      calls := calls + [texts];
      if failure.Some? {
        return calls, failure;
      }
      EmbedFromStep(before, embed, i);
      i := i + BatchSize;
    }
    error := None;
  }

  /** bulk_index_document_with_chunks: with embedding on and a service, the
      chunks are embedded in batches of sixty, in place; a failing service
      call propagates, leaving the earlier batches embedded; otherwise the
      repository receives the same chunk list, under the caller's id or a
      fresh one. Also returns the text lists sent to the service. */
  method BulkIndexDocumentWithChunks<R>(
    bulkIndex: (DoclingDocument, seq<DocChunk>, string, Option<string>) -> Outcome<R>,
    embedder: Option<Embedder>, document: DoclingDocument, chunks: array<DocChunk>,
    documentId: Option<string>, indexName: Option<string>, generateEmbeddings: bool, newId: string)
    returns (r: Outcome<R>, calls: seq<seq<string>>)
    modifies chunks
    ensures var run := if generateEmbeddings && embedder.Some? then EmbedFrom(old(chunks[..]), embedder.value.embedContent, 0)
                       else EmbedRun(old(chunks[..]), [], None);
      chunks[..] == run.chunks && calls == run.calls
      && r == (if run.error.Some? then Raised(run.error.value)
               else bulkIndex(document, run.chunks, ResolveId(documentId, newId), indexName))
  {
    var id := ResolveId(documentId, newId);
    calls := [];
    if generateEmbeddings && embedder.Some? {
      var error;
      calls, error := EmbedInBatches(embedder.value.embedContent, chunks);
      if error.Some? {
        return Raised(error.value), calls;
      }
    }
    r := bulkIndex(document, chunks[..], id, indexName);
  }
}
