/** The chunk-id migration script: every stored chunk document gets its own
    document id written into `chunk.chunk_id`, one document at a time or in
    bulk batches. The search store's index and bulk calls are parameters. */
module ChunkIdMigration {
  import opened Wrappers
  import opened Json
  import ElasticsearchAdaptor

  /** A stored chunk as the migration reads it: its document id and its
      source dictionary. */
  datatype ChunkDoc = ChunkDoc(id: string, source: Dict)

  /** One bulk index action: target index, document id, new source. */
  datatype Action = Action(index: string, id: string, source: Dict)

  datatype Counts = Counts(success: int, failed: int)

  datatype Summary = Summary(success: int, failed: int, total: int)

  /** The chunk id a source dictionary carries, if any. */
  function ChunkIdOf(source: Dict): Option<string> {
    match GetDict(source, "chunk")
    case Some(chunk) => if "chunk_id" in chunk then AsStr(chunk["chunk_id"]) else None
    case None => None
  }

  /** The source with the document id written into its chunk. A source with
      no chunk field, or one whose chunk is not a dictionary (the assignment
      raises), cannot be stamped. Nothing but the chunk id changes. */
  function Stamped(doc: ChunkDoc): (r: Option<Dict>)
    ensures r.Some? <==> "chunk" in doc.source && doc.source["chunk"].Obj?
    ensures r.Some? ==> ChunkIdOf(r.value) == Some(doc.id)
    ensures r.Some? ==>
      r.value.Keys == doc.source.Keys
      && (forall k :: k in doc.source && k != "chunk" ==> r.value[k] == doc.source[k])
    ensures r.Some? ==>
      r.value["chunk"].Obj?
      && r.value["chunk"].o.Keys == doc.source["chunk"].o.Keys + {"chunk_id"}
      && (forall k :: k in doc.source["chunk"].o && k != "chunk_id" ==>
            r.value["chunk"].o[k] == doc.source["chunk"].o[k])
  {
    if "chunk" in doc.source && doc.source["chunk"].Obj? then
      var chunk := doc.source["chunk"].o;
      Some(doc.source["chunk" := Obj(chunk["chunk_id" := Str(doc.id)])])
    else None
  }

  /** Stamping a stamped chunk changes nothing: the migration can be run
      again over documents it already updated. */
  lemma StampIdempotent(doc: ChunkDoc)
    requires Stamped(doc).Some?
    ensures Stamped(ChunkDoc(doc.id, Stamped(doc).value)) == Stamped(doc)
  {
    var once := Stamped(doc).value;
    var chunk := once["chunk"].o;
    assert chunk["chunk_id" := Str(doc.id)] == chunk;
    assert once["chunk" := Obj(chunk)] == once;
  }

  /** update_chunk_with_id: stamp the chunk, index the new source under the
      same id, and report whether the store answered "created" or
      "updated". Any failure, including the store call raising, is false. */
  function UpdateChunkWithId(indexName: string, doc: ChunkDoc,
                             index: (string, string, Dict) -> Outcome<Dict>): (ok: bool)
    ensures ok ==> Stamped(doc).Some? && ChunkIdOf(Stamped(doc).value) == Some(doc.id)
    ensures ok ==>
      index(indexName, doc.id, Stamped(doc).value).Ok?
      && ElasticsearchAdaptor.IndexSucceeded(index(indexName, doc.id, Stamped(doc).value).value)
    ensures "chunk" !in doc.source ==> !ok
    ensures Stamped(doc).Some? && index(indexName, doc.id, Stamped(doc).value).Raised? ==> !ok
    ensures (Stamped(doc).Some? && index(indexName, doc.id, Stamped(doc).value).Ok?
             && ElasticsearchAdaptor.IndexSucceeded(index(indexName, doc.id, Stamped(doc).value).value)) ==> ok
  {
    match Stamped(doc)
    case None => false
    case Some(source) =>
      match index(indexName, doc.id, source)
      case Raised(_) => false
      case Ok(result) => ElasticsearchAdaptor.IndexSucceeded(result)
  }

  // ---------------------------------------------------------------------
  // One batch
  // ---------------------------------------------------------------------

  /** The actions a batch yields, in batch order: one per document that can
      be stamped. */
  function Prepared(indexName: string, batch: seq<ChunkDoc>): seq<Action>
    decreases |batch|
  {
    if |batch| == 0 then []
    else
      var last := batch[|batch| - 1];
      Prepared(indexName, batch[..|batch| - 1])
      + (match Stamped(last) case Some(s) => [Action(indexName, last.id, s)] case None => [])
  }

  /** How many documents of a batch cannot be stamped. */
  function Unprepared(batch: seq<ChunkDoc>): nat
    decreases |batch|
  {
    if |batch| == 0 then 0
    else Unprepared(batch[..|batch| - 1]) + (if Stamped(batch[|batch| - 1]).None? then 1 else 0)
  }

  /** Every document of a batch either yields an action or is counted as
      failed, and never both. */
  lemma {:induction false} PreparedAccounts(indexName: string, batch: seq<ChunkDoc>)
    ensures |Prepared(indexName, batch)| + Unprepared(batch) == |batch|
    decreases |batch|
  {
    if |batch| > 0 {
      PreparedAccounts(indexName, batch[..|batch| - 1]);
    }
  }

  /** Each action targets the migration's index and carries a document of
      the batch, stamped with that document's own id. */
  lemma {:induction false} PreparedStamped(indexName: string, batch: seq<ChunkDoc>)
    ensures forall a :: a in Prepared(indexName, batch) ==>
      a.index == indexName && ChunkIdOf(a.source) == Some(a.id)
      && exists d :: d in batch && d.id == a.id && Stamped(d) == Some(a.source)
    decreases |batch|
  {
    if |batch| > 0 {
      var init := batch[..|batch| - 1];
      PreparedStamped(indexName, init);
      forall a | a in Prepared(indexName, batch)
        ensures a.index == indexName && ChunkIdOf(a.source) == Some(a.id)
          && exists d :: d in batch && d.id == a.id && Stamped(d) == Some(a.source)
      {
        if a in Prepared(indexName, init) {
          var d :| d in init && d.id == a.id && Stamped(d) == Some(a.source);
          assert d in batch;
        } else {
          assert batch[|batch| - 1] in batch;
        }
      }
    }
  }

  /** The loop of _process_batch that builds the actions. */
  method PrepareActions(indexName: string, batch: seq<ChunkDoc>) returns (actions: seq<Action>, failed: nat)
    ensures actions == Prepared(indexName, batch) && failed == Unprepared(batch)
  {
    actions := [];
    failed := 0;
    for i := 0 to |batch|
      invariant actions == Prepared(indexName, batch[..i]) && failed == Unprepared(batch[..i])
    {
      assert batch[..i + 1][..i] == batch[..i];
      var stamped := Stamped(batch[i]);
      if stamped.None? {
        failed := failed + 1;
      } else {
        actions := actions + [Action(indexName, batch[i].id, stamped.value)];
      }
    }
    assert batch[..|batch|] == batch;
  }

  /** A bulk call that accounts for every action: with statistics only, it
      reports how many actions succeeded and how many failed. */
  ghost predicate Accounts(bulk: seq<Action> -> Outcome<(int, int)>) {
    forall actions :: bulk(actions).Ok? ==>
      0 <= bulk(actions).value.0 && 0 <= bulk(actions).value.1
      && bulk(actions).value.0 + bulk(actions).value.1 == |actions|
  }

  /** The counts of one batch: the documents that could not be stamped, plus
      what the bulk call reports for the actions, or every action failed
      when the call raises. No call is made when there is no action. */
  function BatchCounts(indexName: string, batch: seq<ChunkDoc>, bulk: seq<Action> -> Outcome<(int, int)>): Counts {
    var actions := Prepared(indexName, batch);
    if |actions| == 0 then Counts(0, Unprepared(batch))
    else match bulk(actions)
      case Ok(stats) => Counts(stats.0, Unprepared(batch) + stats.1)
      case Raised(_) => Counts(0, Unprepared(batch) + |actions|)
  }

  /** Under a bulk call that accounts for every action, each document of the
      batch is counted exactly once. */
  lemma BatchAccounts(indexName: string, batch: seq<ChunkDoc>, bulk: seq<Action> -> Outcome<(int, int)>)
    requires Accounts(bulk)
    ensures var c := BatchCounts(indexName, batch, bulk);
      0 <= c.success && 0 <= c.failed && c.success + c.failed == |batch|
  {
    PreparedAccounts(indexName, batch);
  }

  /** _process_batch as written: a bulk call that reports failures makes the
      script take the length of a count, which raises after the successes
      were already added, and the handler then counts every action as
      failed. */
  function BatchCountsAsWritten(indexName: string, batch: seq<ChunkDoc>,
                                bulk: seq<Action> -> Outcome<(int, int)>): (c: Counts)
    ensures var actions := Prepared(indexName, batch);
      |actions| > 0 && bulk(actions).Ok? && bulk(actions).value.1 != 0 ==>
        c.success == bulk(actions).value.0 && c.failed == Unprepared(batch) + |actions|
    ensures var actions := Prepared(indexName, batch);
      !(|actions| > 0 && bulk(actions).Ok? && bulk(actions).value.1 != 0) ==>
        c == BatchCounts(indexName, batch, bulk)
  {
    var actions := Prepared(indexName, batch);
    if |actions| == 0 then Counts(0, Unprepared(batch))
    else match bulk(actions)
      case Ok(stats) =>
        if stats.1 == 0 then Counts(stats.0, Unprepared(batch))
        else Counts(stats.0, Unprepared(batch) + |actions|)
      case Raised(_) => Counts(0, Unprepared(batch) + |actions|)
  }

  /** As written, a batch where the bulk call reports some successes and
      some failures is counted more than once: two stampable documents with
      one success and one failure count as one success and two failures. */
  lemma AsWrittenCountsTwice(indexName: string, batch: seq<ChunkDoc>, bulk: seq<Action> -> Outcome<(int, int)>)
    requires Accounts(bulk)
    requires var actions := Prepared(indexName, batch);
      bulk(actions).Ok? && bulk(actions).value.0 > 0 && bulk(actions).value.1 > 0
    ensures var c := BatchCountsAsWritten(indexName, batch, bulk);
      c.success + c.failed > |batch|
  {
    PreparedAccounts(indexName, batch);
  }

  /** A concrete batch that shows the overcount. */
  lemma AsWrittenOvercountExample()
    ensures var chunk := Obj(map["content" := Str("text")]);
      var batch := [ChunkDoc("a", map["chunk" := chunk]), ChunkDoc("b", map["chunk" := chunk])];
      var bulk := (actions: seq<Action>) => if |actions| == 2 then Ok((1, 1)) else Ok((|actions|, 0));
      BatchCountsAsWritten("idx", batch, bulk) == Counts(1, 2)
      && BatchCounts("idx", batch, bulk) == Counts(1, 1)
  {
    var chunk := Obj(map["content" := Str("text")]);
    var batch := [ChunkDoc("a", map["chunk" := chunk]), ChunkDoc("b", map["chunk" := chunk])];
    assert batch[..1] == [batch[0]];
    assert batch[..1][..0] == [];
    PreparedAccounts("idx", batch);
    assert Unprepared(batch) == 0;
  }

  /** _process_batch, with the bulk failure count taken as reported. */
  method ProcessBatch(indexName: string, batch: seq<ChunkDoc>, bulk: seq<Action> -> Outcome<(int, int)>)
    returns (c: Counts)
    ensures c == BatchCounts(indexName, batch, bulk)
  {
    var actions, failed := PrepareActions(indexName, batch);
    c := Counts(0, failed);
    if |actions| > 0 {
      match bulk(actions)
      case Ok(stats) =>
        c := Counts(c.success + stats.0, c.failed + stats.1);
      case Raised(_) =>
        c := c.(failed := c.failed + |actions|);
    }
  }

  // ---------------------------------------------------------------------
  // All batches
  // ---------------------------------------------------------------------

  /** The counts summed over consecutive batches of `batchSize` chunks, the
      last one possibly shorter. */
  function BatchesFrom(indexName: string, chunks: seq<ChunkDoc>, batchSize: nat,
                       bulk: seq<Action> -> Outcome<(int, int)>): Counts
    requires batchSize > 0
    decreases |chunks|
  {
    if |chunks| == 0 then Counts(0, 0)
    else
      var n := if batchSize < |chunks| then batchSize else |chunks|;
      var c := BatchCounts(indexName, chunks[..n], bulk);
      var rest := BatchesFrom(indexName, chunks[n..], batchSize, bulk);
      Counts(c.success + rest.success, c.failed + rest.failed)
  }

  /** Under a bulk call that accounts for every action, the migration's
      successes and failures add up to the number of chunks. */
  lemma {:induction false} BatchesAccount(indexName: string, chunks: seq<ChunkDoc>, batchSize: nat,
                                          bulk: seq<Action> -> Outcome<(int, int)>)
    requires batchSize > 0 && Accounts(bulk)
    ensures var c := BatchesFrom(indexName, chunks, batchSize, bulk);
      0 <= c.success && 0 <= c.failed && c.success + c.failed == |chunks|
    decreases |chunks|
  {
    if |chunks| > 0 {
      var n := if batchSize < |chunks| then batchSize else |chunks|;
      BatchAccounts(indexName, chunks[..n], bulk);
      BatchesAccount(indexName, chunks[n..], batchSize, bulk);
    }
  }

  /** A batch whose bulk call reports a failure count: the case the script
      as written miscounts. */
  predicate ReportsFailures(indexName: string, batch: seq<ChunkDoc>, bulk: seq<Action> -> Outcome<(int, int)>) {
    var actions := Prepared(indexName, batch);
    |actions| > 0 && bulk(actions).Ok? && bulk(actions).value.1 != 0
  }

  /** Under a bulk call that accounts for every action, the script as written
      counts a batch's successes right and, when the call reports failures,
      adds the batch's successes to its failures a second time. */
  lemma BatchAsWrittenExcess(indexName: string, batch: seq<ChunkDoc>, bulk: seq<Action> -> Outcome<(int, int)>)
    requires Accounts(bulk)
    ensures var w := BatchCountsAsWritten(indexName, batch, bulk);
      var c := BatchCounts(indexName, batch, bulk);
      w.success == c.success
      && w.failed == c.failed + (if ReportsFailures(indexName, batch, bulk) then c.success else 0)
  {
  }

  /** The totals the script returns as written: the as-written counts of
      each batch, summed. */
  function BatchesFromAsWritten(indexName: string, chunks: seq<ChunkDoc>, batchSize: nat,
                                bulk: seq<Action> -> Outcome<(int, int)>): Counts
    requires batchSize > 0
    decreases |chunks|
  {
    if |chunks| == 0 then Counts(0, 0)
    else
      var n := if batchSize < |chunks| then batchSize else |chunks|;
      var c := BatchCountsAsWritten(indexName, chunks[..n], bulk);
      var rest := BatchesFromAsWritten(indexName, chunks[n..], batchSize, bulk);
      Counts(c.success + rest.success, c.failed + rest.failed)
  }

  /** The successes of the batches whose bulk call reports failures: what
      the script as written counts twice. */
  function Overcount(indexName: string, chunks: seq<ChunkDoc>, batchSize: nat,
                     bulk: seq<Action> -> Outcome<(int, int)>): int
    requires batchSize > 0
    decreases |chunks|
  {
    if |chunks| == 0 then 0
    else
      var n := if batchSize < |chunks| then batchSize else |chunks|;
      var batch := chunks[..n];
      (if ReportsFailures(indexName, batch, bulk) then BatchCounts(indexName, batch, bulk).success else 0)
      + Overcount(indexName, chunks[n..], batchSize, bulk)
  }

  /** As written, the migration reports the intended successes, and failures
      larger by the successes of every batch whose bulk call reported
      failures; so its success and failure counts add up to more than the
      number of chunks exactly when such a batch had a success. */
  lemma {:induction false} AsWrittenTotals(indexName: string, chunks: seq<ChunkDoc>, batchSize: nat,
                                           bulk: seq<Action> -> Outcome<(int, int)>)
    requires batchSize > 0 && Accounts(bulk)
    ensures var w := BatchesFromAsWritten(indexName, chunks, batchSize, bulk);
      var c := BatchesFrom(indexName, chunks, batchSize, bulk);
      var extra := Overcount(indexName, chunks, batchSize, bulk);
      w.success == c.success && w.failed == c.failed + extra && extra >= 0
      && w.success + w.failed == |chunks| + extra
    decreases |chunks|
  {
    BatchesAccount(indexName, chunks, batchSize, bulk);
    if |chunks| > 0 {
      var n := if batchSize < |chunks| then batchSize else |chunks|;
      BatchAsWrittenExcess(indexName, chunks[..n], bulk);
      BatchAccounts(indexName, chunks[..n], bulk);
      AsWrittenTotals(indexName, chunks[n..], batchSize, bulk);
    }
  }

  /** The batches from position `i` on: the batch starting there, then
      the batches after it. */
  lemma BatchesFromStep(indexName: string, chunks: seq<ChunkDoc>, i: nat, batchSize: nat,
                        bulk: seq<Action> -> Outcome<(int, int)>)
    requires batchSize > 0 && i < |chunks|
    ensures var end := if i + batchSize < |chunks| then i + batchSize else |chunks|;
      var c := BatchCounts(indexName, chunks[i..end], bulk);
      var rest := BatchesFrom(indexName, chunks[end..], batchSize, bulk);
      BatchesFrom(indexName, chunks[i..], batchSize, bulk) == Counts(c.success + rest.success, c.failed + rest.failed)
  {
    var end := if i + batchSize < |chunks| then i + batchSize else |chunks|;
    SliceParts(chunks, i, end);
  }

  lemma SliceParts<X>(xs: seq<X>, i: nat, end: nat)
    requires i <= end <= |xs|
    ensures xs[i..][..end - i] == xs[i..end] && xs[i..][end - i..] == xs[end..]
  {
  }

  /** bulk_update_chunks: a zero batch size raises; a negative one makes no
      batch at all; otherwise the counts are summed over the batches, and
      the total is the number of chunks in every case. */
  method BulkUpdateChunks(indexName: string, chunks: seq<ChunkDoc>, batchSize: int,
                          bulk: seq<Action> -> Outcome<(int, int)>) returns (r: Outcome<Summary>)
    ensures r.Raised? <==> batchSize == 0
    ensures batchSize < 0 ==> r == Ok(Summary(0, 0, |chunks|))
    ensures batchSize > 0 ==>
      var c := BatchesFrom(indexName, chunks, batchSize, bulk);
      r == Ok(Summary(c.success, c.failed, |chunks|))
  {
    if batchSize == 0 {
      return Raised("range() arg 3 must not be zero");
    }
    var success, failed := 0, 0;
    if batchSize > 0 {
      ghost var whole := BatchesFrom(indexName, chunks, batchSize, bulk);
      var i := 0;
      while i < |chunks|
        invariant 0 <= i <= |chunks|
        invariant var rest := BatchesFrom(indexName, chunks[i..], batchSize, bulk);
          whole.success == success + rest.success && whole.failed == failed + rest.failed
        decreases |chunks| - i
      {
        var end := if i + batchSize < |chunks| then i + batchSize else |chunks|;
        BatchesFromStep(indexName, chunks, i, batchSize, bulk);
        var counts := ProcessBatch(indexName, chunks[i..end], bulk);
        success := success + counts.success;
        failed := failed + counts.failed;
        i := end;
      }
    }
    r := Ok(Summary(success, failed, |chunks|));
  }
}
