/** Recovering the chunks an answer cited: the extractor finds the retrieval
    tool's result among the messages, repeats the search with the query the
    model asked for, rebuilds the rank-and-hash ids, and appends the chunks
    whose ids were cited (all of them when none were). */
module AgentExtractor {
  import opened Wrappers
  import opened Strings
  import opened Json
  import opened Documents
  import opened AgentDtos
  import opened AgentPorts
  import opened RetrievalTool

  const RetrieveToolName: string := "retrieve_documents"

  predicate IsRetrievalResult(m: Message) {
    m.ToolMessage? && m.name == RetrieveToolName
  }

  /** The first retrieval call among a message's tool calls. */
  function FirstRetrieveCall(calls: seq<ToolCall>): (r: Option<ToolCall>)
    ensures r.Some? ==> r.value in calls && r.value.name == RetrieveToolName
    ensures r.None? <==> forall k :: 0 <= k < |calls| ==> calls[k].name != RetrieveToolName
  {
    if |calls| == 0 then None
    else if calls[0].name == RetrieveToolName then Some(calls[0])
    else FirstRetrieveCall(calls[1..])
  }

  /** The query the extractor settles on after scanning a prefix of the
      messages: each model message with a retrieval call overwrites it with
      that call's `args.get("query")`, so the last such message wins. Null
      stands for Python's None. */
  function QueryUpTo(msgs: seq<Message>): Json {
    if |msgs| == 0 then Null
    else
      var last := msgs[|msgs| - 1];
      if last.AIMessage? && |last.toolCalls| > 0 && FirstRetrieveCall(last.toolCalls).Some? then
        GetOrNull(FirstRetrieveCall(last.toolCalls).value.args, "query")
      else QueryUpTo(msgs[..|msgs| - 1])
  }

  /** The query comes from the last model message that asked for a retrieval. */
  lemma {:induction false} QueryFromLastCall(msgs: seq<Message>, i: nat)
    requires i < |msgs| && msgs[i].AIMessage? && FirstRetrieveCall(msgs[i].toolCalls).Some?
    requires forall j :: i < j < |msgs| ==> !(msgs[j].AIMessage? && FirstRetrieveCall(msgs[j].toolCalls).Some?)
    ensures QueryUpTo(msgs) == GetOrNull(FirstRetrieveCall(msgs[i].toolCalls).value.args, "query")
    decreases |msgs|
  {
    if i < |msgs| - 1 {
      var init := msgs[..|msgs| - 1];
      QueryFromLastCall(init, i);
    }
  }

  /** The id-to-chunk map rebuilt from a result list, ranks counted from 1;
      a later chunk overwrites an earlier one with the same id. */
  function IdMap(chunks: seq<DocChunk>, hash: string -> int): map<string, DocChunk> {
    if |chunks| == 0 then map[]
    else
      var n := |chunks|;
      IdMap(chunks[..n - 1], hash)[ChunkId(n, chunks[n - 1].text, hash) := chunks[n - 1]]
  }

  /** Because ids of different ranks differ, each chunk's id leads back to
      that chunk, even when two chunks have the same text. */
  lemma {:induction false} IdMapLookup(chunks: seq<DocChunk>, hash: string -> int)
    ensures forall k :: 0 <= k < |chunks| ==>
      ChunkId(k + 1, chunks[k].text, hash) in IdMap(chunks, hash)
      && IdMap(chunks, hash)[ChunkId(k + 1, chunks[k].text, hash)] == chunks[k]
    decreases |chunks|
  {
    if |chunks| > 0 {
      var n := |chunks|;
      var init := chunks[..n - 1];
      IdMapLookup(init, hash);
      var newId := ChunkId(n, chunks[n - 1].text, hash);
      forall k | 0 <= k < n - 1
        ensures ChunkId(k + 1, chunks[k].text, hash) != newId
      {
        RetrievalTool.ChunkIdsDistinct(k + 1, chunks[k].text, n, chunks[n - 1].text, hash);
      }
      forall k | 0 <= k < n - 1
        ensures init[k] == chunks[k]
      {
      }
    }
  }

  /** The map holds the ids of the result list and nothing else. */
  lemma {:induction false} IdMapKeys(chunks: seq<DocChunk>, hash: string -> int)
    ensures forall id :: id in IdMap(chunks, hash) ==> exists k :: 0 <= k < |chunks| && id == ChunkId(k + 1, chunks[k].text, hash)
    decreases |chunks|
  {
    if |chunks| > 0 {
      var n := |chunks|;
      var init := chunks[..n - 1];
      IdMapKeys(init, hash);
      forall id | id in IdMap(chunks, hash)
        ensures exists k :: 0 <= k < n && id == ChunkId(k + 1, chunks[k].text, hash)
      {
        if id != ChunkId(n, chunks[n - 1].text, hash) {
          assert IdMap(chunks, hash) == IdMap(init, hash)[ChunkId(n, chunks[n - 1].text, hash) := chunks[n - 1]];
          assert id in IdMap(init, hash);
          var k :| 0 <= k < |init| && id == ChunkId(k + 1, init[k].text, hash);
          assert init[k] == chunks[k];
        }
      }
    }
  }

  /** The cited ids that the map knows, in citation order, duplicates kept. */
  function Selected(ids: seq<string>, idMap: map<string, DocChunk>): (r: seq<DocChunk>)
    ensures |r| <= |ids|
    ensures forall c :: c in r ==> exists id :: id in idMap && idMap[id] == c
  {
    if |ids| == 0 then []
    else
      var rest := Selected(ids[..|ids| - 1], idMap);
      var id := ids[|ids| - 1];
      if id in idMap then rest + [idMap[id]] else rest
  }

  /** When every cited id is known, one chunk comes back per citation, in order. */
  lemma {:induction false} SelectedAllKnown(ids: seq<string>, idMap: map<string, DocChunk>)
    requires forall k :: 0 <= k < |ids| ==> ids[k] in idMap
    ensures Selected(ids, idMap) == seq(|ids|, k requires 0 <= k < |ids| => idMap[ids[k]])
    decreases |ids|
  {
    if |ids| > 0 {
      SelectedAllKnown(ids[..|ids| - 1], idMap);
    }
  }

  /** Unknown ids are skipped. */
  lemma {:induction false} SelectedNoneKnown(ids: seq<string>, idMap: map<string, DocChunk>)
    requires forall k :: 0 <= k < |ids| ==> ids[k] !in idMap
    ensures Selected(ids, idMap) == []
    decreases |ids|
  {
    if |ids| > 0 {
      SelectedNoneKnown(ids[..|ids| - 1], idMap);
    }
  }

  /** The chunks a repeated search yields for the cited ids: the cited
      chunks, or every result when nothing is cited. */
  function ChunksFor(retrieved: seq<DocChunk>, chunkIdsUsed: seq<string>, hash: string -> int): seq<DocChunk> {
    Selected(chunkIdsUsed, IdMap(retrieved, hash))
      + (if |chunkIdsUsed| == 0 then retrieved else [])
  }

  /** The index of the first retrieval result among the messages, if any. */
  function FirstRetrievalResult(msgs: seq<Message>): (r: Option<nat>)
    ensures r.Some? ==> r.value < |msgs| && IsRetrievalResult(msgs[r.value])
    ensures r.Some? ==> forall j :: 0 <= j < r.value ==> !IsRetrievalResult(msgs[j])
    ensures r.None? <==> forall j :: 0 <= j < |msgs| ==> !IsRetrievalResult(msgs[j])
  {
    if |msgs| == 0 then None
    else if IsRetrievalResult(msgs[0]) then Some(0)
    else match FirstRetrievalResult(msgs[1..])
      case None => None
      case Some(k) => Some(k + 1)
  }

  /** What a repeated search for a query contributes: nothing unless the
      query is a non-empty string and the embedding and search succeed. */
  function AddedFor(ports: Ports, query: Json, chunkIdsUsed: seq<string>): seq<DocChunk> {
    match query
    case Str(q) =>
      if |q| == 0 then []
      else
        (match ports.embedSingle(q)
         case Raised(_) => []
         case Ok(vector) =>
           match ports.searchChunks(q, vector)
           case Raised(_) => []
           case Ok(retrieved) => ChunksFor(retrieved, chunkIdsUsed, ports.hash))
    case _ => []
  }

  /** What the extractor appends to the caller's chunk list: nothing unless a
      retrieval result is present among the messages. */
  function Added(ports: Ports, msgs: seq<Message>, chunkIdsUsed: seq<string>): seq<DocChunk> {
    if FirstRetrievalResult(msgs).None? then [] else AddedFor(ports, QueryUpTo(msgs), chunkIdsUsed)
  }

  /** With no retrieval result among the messages nothing is added. */
  lemma NoRetrievalNothingAdded(ports: Ports, msgs: seq<Message>, chunkIdsUsed: seq<string>)
    requires forall j :: 0 <= j < |msgs| ==> !msgs[j].ToolMessage?
    ensures Added(ports, msgs, chunkIdsUsed) == []
  {
  }

  /** The cited chunks of a repeated search: citing the ids the retrieval
      tool printed gives back those chunks in citation order; citing nothing
      gives every result. */
  lemma CitedChunksComeBack(retrieved: seq<DocChunk>, ranks: seq<nat>, ids: seq<string>, hash: string -> int)
    requires |ids| == |ranks|
    requires forall j :: 0 <= j < |ranks| ==> ranks[j] < |retrieved| && ids[j] == ChunkId(ranks[j] + 1, retrieved[ranks[j]].text, hash)
    ensures ChunksFor(retrieved, ids, hash)
      == if |ranks| == 0 then retrieved else seq(|ranks|, j requires 0 <= j < |ranks| => retrieved[ranks[j]])
  {
    var m := IdMap(retrieved, hash);
    IdMapLookup(retrieved, hash);
    forall j | 0 <= j < |ids|
      ensures ids[j] in m && m[ids[j]] == retrieved[ranks[j]]
    {
    }
    SelectedAllKnown(ids, m);
    if |ranks| == 0 {
      assert ChunksFor(retrieved, ids, hash) == [] + retrieved;
    } else {
      assert ChunksFor(retrieved, ids, hash) == Selected(ids, m) + [];
    }
  }

  // ---------------------------------------------------------------------
  // Pictures of the used chunks
  // ---------------------------------------------------------------------

  /** Whether the repeated search for a query runs to the end: the query is
      a non-empty string and both the embedding and the search succeed. */
  predicate SearchCompletes(ports: Ports, query: Json) {
    query.Str? && |query.s| > 0 && ports.embedSingle(query.s).Ok?
    && ports.searchChunks(query.s, ports.embedSingle(query.s).value).Ok?
  }

  /** The attributes the picture loop reads from a document item with
      `hasattr` and `getattr`: `label` and `picture_id`. */
  datatype ItemAttributes = ItemAttributes(itemLabel: Option<string>, pictureId: Option<string>)

  /** The items of a chunk read back from the store are dictionaries; a
      dictionary has keys, perhaps "label" among them, but no attributes. */
  function DictAttributes(item: Dict): ItemAttributes {
    ItemAttributes(None, None)
  }

  /** The picture id an item is looked up under, if any: its label mentions
      "picture" in any case, and both its picture id and the chunk's document
      id are non-empty. */
  function PictureLookup(a: ItemAttributes, documentId: string): (r: Option<string>)
    ensures r.Some? <==> (a.itemLabel.Some? && Contains(Lower(a.itemLabel.value), "picture")
                          && a.pictureId.Some? && |a.pictureId.value| > 0 && |documentId| > 0)
    ensures r.Some? ==> r == a.pictureId
  {
    if a.itemLabel.Some? && Contains(Lower(a.itemLabel.value), "picture")
       && a.pictureId.Some? && |a.pictureId.value| > 0 && |documentId| > 0
    then a.pictureId
    else None
  }

  /** The pictures a scan appends, and whether it stopped on an exception
      (the pictures found before the exception stay appended). */
  datatype Gathered = Gathered(pictures: seq<DocumentPicture>, raised: bool)

  /** The scan over one chunk's items. */
  function ItemsPictures(ports: Ports, documentId: string, items: seq<Dict>, attrs: Dict -> ItemAttributes): Gathered
    decreases |items|
  {
    if |items| == 0 then Gathered([], false)
    else
      match PictureLookup(attrs(items[0]), documentId)
      case None => ItemsPictures(ports, documentId, items[1..], attrs)
      case Some(pictureId) =>
        match ports.getPicture(documentId, pictureId)
        case Raised(_) => Gathered([], true)
        case Ok(p) =>
          var rest := ItemsPictures(ports, documentId, items[1..], attrs);
          Gathered((if p.Some? then [p.value] else []) + rest.pictures, rest.raised)
  }

  /** The scan over the chunks, each with its own document id. */
  function ChunksPictures(ports: Ports, chunks: seq<DocChunk>, attrs: Dict -> ItemAttributes): Gathered
    decreases |chunks|
  {
    if |chunks| == 0 then Gathered([], false)
    else
      var first := ItemsPictures(ports, chunks[0].documentId, chunks[0].meta.docItems, attrs);
      if first.raised then first
      else
        var rest := ChunksPictures(ports, chunks[1..], attrs);
        Gathered(first.pictures + rest.pictures, rest.raised)
  }

  /** What the extractor appends to the caller's picture list: the scan over
      every used chunk, after a repeated search that ran to the end. */
  function PicturesAdded(ports: Ports, msgs: seq<Message>, chunksUsed: seq<DocChunk>,
                         chunkIdsUsed: seq<string>, attrs: Dict -> ItemAttributes): seq<DocumentPicture>
  {
    if FirstRetrievalResult(msgs).None? || !SearchCompletes(ports, QueryUpTo(msgs)) then []
    else ChunksPictures(ports, chunksUsed + Added(ports, msgs, chunkIdsUsed), attrs).pictures
  }

  /** An item whose attributes do not call for a lookup adds nothing and
      cannot fail. */
  lemma {:induction false} NoLookupNoPictures(ports: Ports, documentId: string, items: seq<Dict>,
                                               attrs: Dict -> ItemAttributes)
    requires forall k :: 0 <= k < |items| ==> PictureLookup(attrs(items[k]), documentId).None?
    ensures ItemsPictures(ports, documentId, items, attrs) == Gathered([], false)
    decreases |items|
  {
    if |items| > 0 {
      assert PictureLookup(attrs(items[0]), documentId).None?;
      NoLookupNoPictures(ports, documentId, items[1..], attrs);
    }
  }

  /** Dictionary items have no `label` attribute, so the scan over chunks
      read back from the store never calls get_picture and adds nothing. */
  lemma {:induction false} DictItemsNoPictures(ports: Ports, chunks: seq<DocChunk>)
    ensures ChunksPictures(ports, chunks, DictAttributes) == Gathered([], false)
    decreases |chunks|
  {
    if |chunks| > 0 {
      NoLookupNoPictures(ports, chunks[0].documentId, chunks[0].meta.docItems, DictAttributes);
      DictItemsNoPictures(ports, chunks[1..]);
    }
  }

  /** An item labelled as a picture, with a picture id, in a chunk with a
      document id, is fetched, and the picture found is appended. */
  lemma PictureItemFetched(ports: Ports, documentId: string, item: Dict, attrs: Dict -> ItemAttributes,
                           p: DocumentPicture)
    requires attrs(item).itemLabel.Some? && Contains(Lower(attrs(item).itemLabel.value), "picture")
    requires attrs(item).pictureId.Some? && |attrs(item).pictureId.value| > 0 && |documentId| > 0
    requires ports.getPicture(documentId, attrs(item).pictureId.value) == Ok(Some(p))
    ensures ItemsPictures(ports, documentId, [item], attrs) == Gathered([p], false)
  {
    assert [item][1..] == [];
  }

  /** A get_picture failure ends the scan, keeping what was found before. */
  lemma {:induction false} FetchFailureStops(ports: Ports, chunks: seq<DocChunk>, attrs: Dict -> ItemAttributes,
                                             more: seq<DocChunk>)
    requires ChunksPictures(ports, chunks, attrs).raised
    ensures ChunksPictures(ports, chunks + more, attrs) == ChunksPictures(ports, chunks, attrs)
    decreases |chunks|
  {
    assert (chunks + more)[0] == chunks[0];
    if !ItemsPictures(ports, chunks[0].documentId, chunks[0].meta.docItems, attrs).raised {
      assert (chunks + more)[1..] == chunks[1..] + more;
      FetchFailureStops(ports, chunks[1..], attrs, more);
    }
  }

  /** _extract_chunks_and_pictures_from_response, on the caller's chunk and
      picture lists. The first retrieval result triggers one repeated search,
      and after a search that ran to the end the used chunks are scanned for
      pictures; their items are dictionaries, so no picture is added. */
  method ExtractChunksAndPictures(ports: Ports, msgs: seq<Message>, chunksUsed: seq<DocChunk>,
                                  pictures: seq<DocumentPicture>, chunkIdsUsed: seq<string>)
    returns (chunksOut: seq<DocChunk>, picturesOut: seq<DocumentPicture>)
    ensures chunksOut == chunksUsed + Added(ports, msgs, chunkIdsUsed)
    ensures picturesOut == pictures + PicturesAdded(ports, msgs, chunksUsed, chunkIdsUsed, DictAttributes)
    ensures picturesOut == pictures
  {
    chunksOut, picturesOut := chunksUsed, pictures;
    var i := 0;
    while i < |msgs|
      invariant 0 <= i <= |msgs|
      invariant forall j :: 0 <= j < i ==> !IsRetrievalResult(msgs[j])
    {
      if IsRetrievalResult(msgs[i]) {
        assert FirstRetrievalResult(msgs).Some?;
        var query := FindQuery(msgs);
        var completed;
        chunksOut, completed := RepeatSearch(ports, query, chunksUsed, chunkIdsUsed);
        if completed {
          var found, _ := GatherPictures(ports, chunksOut, DictAttributes);
          picturesOut := picturesOut + found;
        }
        DictItemsNoPictures(ports, chunksOut);
        return;
      }
      i := i + 1;
    }
  }

  /** The body run for the first retrieval result: search again with the
      query, rebuild the ids, and append the cited chunks. */
  method RepeatSearch(ports: Ports, query: Json, chunksUsed: seq<DocChunk>, chunkIdsUsed: seq<string>)
    returns (chunksOut: seq<DocChunk>, completed: bool)
    ensures chunksOut == chunksUsed + AddedFor(ports, query, chunkIdsUsed)
    ensures completed == SearchCompletes(ports, query)
  {
    chunksOut, completed := chunksUsed, false;
    if query.Str? && |query.s| > 0 {
      var vector := ports.embedSingle(query.s);
      if vector.Raised? {
        return;
      }
      var found := ports.searchChunks(query.s, vector.value);
      if found.Raised? {
        return;
      }
      var retrieved := found.value;
      var idMap := BuildIdMap(retrieved, ports.hash);
      chunksOut := AppendCited(chunksOut, chunkIdsUsed, idMap);
      if |chunkIdsUsed| == 0 {
        chunksOut := chunksOut + retrieved;
      }
      completed := true;
    }
  }

  /** The loop over the used chunks, stopping at a get_picture failure. */
  method GatherPictures(ports: Ports, chunks: seq<DocChunk>, attrs: Dict -> ItemAttributes)
    returns (found: seq<DocumentPicture>, raised: bool)
    ensures Gathered(found, raised) == ChunksPictures(ports, chunks, attrs)
  {
    found, raised := [], false;
    var i := 0;
    while i < |chunks|
      invariant 0 <= i <= |chunks|
      invariant ChunksPictures(ports, chunks, attrs)
                == Gathered(found + ChunksPictures(ports, chunks[i..], attrs).pictures,
                            ChunksPictures(ports, chunks[i..], attrs).raised)
    {
      assert chunks[i..][0] == chunks[i] && chunks[i..][1..] == chunks[i + 1..];
      var more, failed := GatherItemPictures(ports, chunks[i].documentId, chunks[i].meta.docItems, attrs);
      found := found + more;
      if failed {
        return found, true;
      }
      i := i + 1;
    }
  }

  /** The loop over one chunk's items. */
  method GatherItemPictures(ports: Ports, documentId: string, items: seq<Dict>, attrs: Dict -> ItemAttributes)
    returns (found: seq<DocumentPicture>, raised: bool)
    ensures Gathered(found, raised) == ItemsPictures(ports, documentId, items, attrs)
  {
    found, raised := [], false;
    var i := 0;
    while i < |items|
      invariant 0 <= i <= |items|
      invariant ItemsPictures(ports, documentId, items, attrs)
                == Gathered(found + ItemsPictures(ports, documentId, items[i..], attrs).pictures,
                            ItemsPictures(ports, documentId, items[i..], attrs).raised)
    {
      assert items[i..][0] == items[i] && items[i..][1..] == items[i + 1..];
      var lookup := PictureLookup(attrs(items[i]), documentId);
      if lookup.Some? {
        var picture := ports.getPicture(documentId, lookup.value);
        if picture.Raised? {
          return found, true;
        }
        if picture.value.Some? {
          found := found + [picture.value.value];
        }
      }
      i := i + 1;
    }
  }

  /** The loop over the cited ids. */
  method AppendCited(chunksUsed: seq<DocChunk>, chunkIdsUsed: seq<string>, idMap: map<string, DocChunk>)
    returns (chunksOut: seq<DocChunk>)
    ensures chunksOut == chunksUsed + Selected(chunkIdsUsed, idMap)
  {
    chunksOut := chunksUsed;
    var k := 0;
    while k < |chunkIdsUsed|
      invariant 0 <= k <= |chunkIdsUsed|
      invariant chunksOut == chunksUsed + Selected(chunkIdsUsed[..k], idMap)
    {
      assert chunkIdsUsed[..k + 1][..k] == chunkIdsUsed[..k];
      if chunkIdsUsed[k] in idMap {
        chunksOut := chunksOut + [idMap[chunkIdsUsed[k]]];
      }
      k := k + 1;
    }
    assert chunkIdsUsed[..|chunkIdsUsed|] == chunkIdsUsed;
  }

  /** The query scan: every model message with tool calls is searched for
      its first retrieval call, whose "query" argument replaces the query. */
  method FindQuery(msgs: seq<Message>) returns (query: Json)
    ensures query == QueryUpTo(msgs)
  {
    query := Null;
    var i := 0;
    while i < |msgs|
      invariant 0 <= i <= |msgs|
      invariant query == QueryUpTo(msgs[..i])
    {
      assert msgs[..i + 1][..i] == msgs[..i];
      var msg := msgs[i];
      if msg.AIMessage? && |msg.toolCalls| > 0 {
        var call := FindRetrieveCall(msg.toolCalls);
        if call.Some? {
          query := GetOrNull(call.value.args, "query");
        }
      }
      i := i + 1;
    }
    assert msgs[..|msgs|] == msgs;
  }

  /** The inner loop over one message's tool calls, stopping at the first
      retrieval call. */
  method FindRetrieveCall(calls: seq<ToolCall>) returns (r: Option<ToolCall>)
    ensures r == FirstRetrieveCall(calls)
  {
    var j := 0;
    while j < |calls|
      invariant 0 <= j <= |calls|
      invariant FirstRetrieveCall(calls) == FirstRetrieveCall(calls[j..])
    {
      assert calls[j..][1..] == calls[j + 1..];
      if calls[j].name == RetrieveToolName {
        return Some(calls[j]);
      }
      j := j + 1;
    }
    return None;
  }

  /** The loop that fills `chunk_id_to_chunk`. */
  method BuildIdMap(retrieved: seq<DocChunk>, hash: string -> int) returns (idMap: map<string, DocChunk>)
    ensures idMap == IdMap(retrieved, hash)
  {
    idMap := map[];
    var i := 0;
    while i < |retrieved|
      invariant 0 <= i <= |retrieved|
      invariant idMap == IdMap(retrieved[..i], hash)
    {
      assert retrieved[..i + 1][..i] == retrieved[..i];
      var chunkId := "chunk_" + NatToString(i + 1) + "_" + NatToString(hash(retrieved[i].text) % 10000);
      idMap := idMap[chunkId := retrieved[i]];
      i := i + 1;
    }
    assert retrieved[..|retrieved|] == retrieved;
  }
}
