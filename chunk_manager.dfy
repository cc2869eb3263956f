/** The Telegram bot's per-user store of the chunks an answer cited, so that a
    button press can show one of them later. */
module ChunkManagement {
  import opened Wrappers
  import opened Strings
  import opened Documents

  /** The record kept per chunk: a dictionary with "text", "document_id" and
      "chunk_id". */
  type ChunkData = map<string, string>

  function Entry(chunkId: string, c: DocChunk): (d: ChunkData)
    ensures "text" in d && "document_id" in d && "chunk_id" in d
    ensures d["text"] == c.text && d["document_id"] == c.documentId && d["chunk_id"] == chunkId
  {
    map["text" := c.text, "document_id" := c.documentId, "chunk_id" := chunkId]
  }

  /** A stored record has exactly the three keys. */
  lemma EntryKeys(chunkId: string, c: DocChunk)
    ensures Entry(chunkId, c).Keys == {"text", "document_id", "chunk_id"}
  {
  }

  /** The user's chunk map after the first `n` (id, chunk) pairs are stored in turn. */
  function StoredUpTo(m: map<string, ChunkData>, ids: seq<string>, chunks: seq<DocChunk>, n: nat): map<string, ChunkData>
    requires n <= |ids| && n <= |chunks|
  {
    if n == 0 then m
    else StoredUpTo(m, ids, chunks, n - 1)[ids[n - 1] := Entry(ids[n - 1], chunks[n - 1])]
  }

  /** How many pairs `zip` visits. */
  function ZipLength(ids: seq<string>, chunks: seq<DocChunk>): (n: nat)
    ensures n <= |ids| && n <= |chunks|
    ensures n == |ids| || n == |chunks|
  {
    if |ids| <= |chunks| then |ids| else |chunks|
  }

  /** Storing pairs adds exactly the paired ids to the stored ones. */
  lemma {:induction false} StoredUpToKeys(m: map<string, ChunkData>, ids: seq<string>, chunks: seq<DocChunk>, n: nat)
    requires n <= |ids| && n <= |chunks|
    ensures StoredUpTo(m, ids, chunks, n).Keys == m.Keys + set k | 0 <= k < n :: ids[k]
  {
    if n > 0 {
      StoredUpToKeys(m, ids, chunks, n - 1);
      assert (set k | 0 <= k < n :: ids[k]) == (set k | 0 <= k < n - 1 :: ids[k]) + {ids[n - 1]};
    }
  }

  /** An id that is not paired keeps its old record. */
  lemma {:induction false} StoredUpToKeepsOthers(m: map<string, ChunkData>, ids: seq<string>, chunks: seq<DocChunk>, n: nat, key: string)
    requires n <= |ids| && n <= |chunks|
    requires key in m && key !in ids[..n]
    ensures key in StoredUpTo(m, ids, chunks, n) && StoredUpTo(m, ids, chunks, n)[key] == m[key]
  {
    if n > 0 {
      assert ids[..n] == ids[..n - 1] + [ids[n - 1]];
      StoredUpToKeepsOthers(m, ids, chunks, n - 1, key);
    }
  }

  /** A paired id holds the record of the last chunk paired with it, so a
      re-stored id is overwritten. */
  lemma {:induction false} StoredUpToLastWins(m: map<string, ChunkData>, ids: seq<string>, chunks: seq<DocChunk>, n: nat, k: nat)
    requires n <= |ids| && n <= |chunks|
    requires k < n && ids[k] !in ids[k + 1..n]
    ensures ids[k] in StoredUpTo(m, ids, chunks, n)
    ensures StoredUpTo(m, ids, chunks, n)[ids[k]] == Entry(ids[k], chunks[k])
  {
    if k < n - 1 {
      assert ids[k + 1..n] == ids[k + 1..n - 1] + [ids[n - 1]];
      StoredUpToLastWins(m, ids, chunks, n - 1, k);
    }
  }

  class ChunkManager {
    var userChunks: map<string, map<string, ChunkData>>

    constructor()
      ensures userChunks == map[]
    {
      userChunks := map[];
    }

    /** The chunk map of a user; empty for a user never seen. */
    function ChunksOf(userId: string): map<string, ChunkData>
      reads this
    {
      if userId in userChunks then userChunks[userId] else map[]
    }

    /** store_chunks: nothing happens when either list is empty; otherwise the
        ids and chunks are paired positionally up to the shorter list and
        stored under the user, creating the user's map if needed. */
    method StoreChunks(userId: string, chunkIds: seq<string>, retrievedChunks: seq<DocChunk>)
      modifies this
      ensures |chunkIds| == 0 || |retrievedChunks| == 0 ==> userChunks == old(userChunks)
      ensures |chunkIds| > 0 && |retrievedChunks| > 0 ==>
        userChunks == old(userChunks)[userId := StoredUpTo(old(ChunksOf(userId)), chunkIds, retrievedChunks, ZipLength(chunkIds, retrievedChunks))]
    {
      if |chunkIds| == 0 || |retrievedChunks| == 0 {
        return;
      }
      // the user's map, created when absent, then filled pair by pair
      var stored := if userId in userChunks then userChunks[userId] else map[];
      var n := ZipLength(chunkIds, retrievedChunks);
      var i := 0;
      while i < n
        invariant 0 <= i <= n
        invariant stored == StoredUpTo(old(ChunksOf(userId)), chunkIds, retrievedChunks, i)
      {
        var chunkId := chunkIds[i];
        var chunk := retrievedChunks[i];
        stored := stored[chunkId := Entry(chunkId, chunk)];
        i := i + 1;
      }
      userChunks := userChunks[userId := stored];
    }

    /** get_chunk: the record, or None for an unknown user or id. */
    method GetChunk(userId: string, chunkId: string) returns (r: Option<ChunkData>)
      ensures r.Some? <==> userId in userChunks && chunkId in userChunks[userId]
      ensures r.Some? ==> r.value == userChunks[userId][chunkId]
    {
      var chunks := if userId in userChunks then userChunks[userId] else map[];
      r := if chunkId in chunks then Some(chunks[chunkId]) else None;
    }

    /** clear_user_chunks: forgets the user's chunks, reporting whether there
        were any. */
    method ClearUserChunks(userId: string) returns (found: bool)
      modifies this
      ensures found <==> userId in old(userChunks)
      ensures userChunks == old(userChunks) - {userId}
      ensures ChunksOf(userId) == map[]
    {
      if userId in userChunks {
        userChunks := userChunks - {userId};
        return true;
      }
      return false;
    }

    /** get_user_chunk_ids: the ids stored for the user, each once. */
    method GetUserChunkIds(userId: string) returns (ids: seq<string>)
      ensures forall id :: id in ids <==> id in ChunksOf(userId)
      ensures forall i, j :: 0 <= i < j < |ids| ==> ids[i] != ids[j]
    {
      var chunks := if userId in userChunks then userChunks[userId] else map[];
      ids := [];
      var remaining := chunks.Keys;
      while remaining != {}
        invariant remaining <= chunks.Keys
        invariant forall id :: id in ids <==> id in chunks.Keys - remaining
        invariant forall i, j :: 0 <= i < j < |ids| ==> ids[i] != ids[j]
        decreases remaining
      {
        var id :| id in remaining;
        forall i | 0 <= i < |ids|
          ensures ids[i] != id
        {
          assert ids[i] in ids;
        }
        ids := ids + [id];
        remaining := remaining - {id};
      }
    }
  }

  /** The chunk text as displayed: longer than `maxLength`, it is cut to the
      slice `[:maxLength]` and "..." is appended. */
  function DisplayedText(text: string, maxLength: int): (r: string)
    ensures |text| <= maxLength ==> r == text
    ensures 0 <= maxLength < |text| ==> |r| == maxLength + 3 && r[..maxLength] == text[..maxLength] && r[maxLength..] == "..."
  {
    if |text| > maxLength then PyPrefix(text, maxLength) + "..." else text
  }

  function GetOr(d: ChunkData, key: string, default: string): string {
    if key in d then d[key] else default
  }

  /** format_chunk_content: a title with the chunk id, the document id in
      code style, then the (possibly cut) text. */
  function FormatChunkContent(chunkData: ChunkData, maxLength: int): (r: string)
    ensures var title := "\U{1F4C4} **Document Chunk: " + GetOr(chunkData, "chunk_id", "Unknown") + "**\n\n";
      |title| <= |r| && r[..|title|] == title
    ensures var title := "\U{1F4C4} **Document Chunk: " + GetOr(chunkData, "chunk_id", "Unknown") + "**\n\n";
      var idLine := "\U{1F4CB} **Document ID:** `" + GetOr(chunkData, "document_id", "Unknown") + "`\n\n";
      |title| + |idLine| <= |r| && r[|title|..|title| + |idLine|] == idLine
    ensures var body := DisplayedText(GetOr(chunkData, "text", "No content available"), maxLength);
      var content := "**Content:**\n" + body;
      |content| <= |r| && r[|r| - |content|..] == content
    ensures |r| == |"\U{1F4C4} **Document Chunk: " + GetOr(chunkData, "chunk_id", "Unknown") + "**\n\n"|
                 + |"\U{1F4CB} **Document ID:** `" + GetOr(chunkData, "document_id", "Unknown") + "`\n\n"|
                 + |"**Content:**\n" + DisplayedText(GetOr(chunkData, "text", "No content available"), maxLength)|
  {
    var title := "\U{1F4C4} **Document Chunk: " + GetOr(chunkData, "chunk_id", "Unknown") + "**\n\n";
    var idLine := "\U{1F4CB} **Document ID:** `" + GetOr(chunkData, "document_id", "Unknown") + "`\n\n";
    var content := "**Content:**\n" + DisplayedText(GetOr(chunkData, "text", "No content available"), maxLength);
    assert (title + idLine + content)[..|title|] == title;
    assert (title + idLine + content)[|title|..|title| + |idLine|] == idLine;
    assert (title + idLine + content)[|title| + |idLine|..] == content;
    title + idLine + content
  }

  /** A record stored by `StoreChunks` displays its chunk's id, then its
      document id in code style, then its text cut to the limit. */
  lemma FormatStoredEntry(chunkId: string, c: DocChunk, maxLength: int)
    ensures var r := FormatChunkContent(Entry(chunkId, c), maxLength);
      var title := "\U{1F4C4} **Document Chunk: " + chunkId + "**\n\n";
      var idLine := "\U{1F4CB} **Document ID:** `" + c.documentId + "`\n\n";
      var body := DisplayedText(c.text, maxLength);
      |title| + |idLine| + |body| <= |r|
      && r[..|title|] == title && r[|title|..|title| + |idLine|] == idLine && r[|r| - |body|..] == body
  {
    var r := FormatChunkContent(Entry(chunkId, c), maxLength);
    var content := "**Content:**\n" + DisplayedText(c.text, maxLength);
    assert r[|r| - |content|..] == content;
  }

  /** A missing key reads as its default: a record with no keys is shown as
      one whose text is "No content available" and whose ids are "Unknown". */
  lemma FormatEmptyRecord(maxLength: int)
    ensures FormatChunkContent(map[], maxLength) ==
      FormatChunkContent(map["text" := "No content available", "document_id" := "Unknown", "chunk_id" := "Unknown"], maxLength)
  {
    var full := map["text" := "No content available", "document_id" := "Unknown", "chunk_id" := "Unknown"];
    assert GetOr(full, "text", "No content available") == GetOr(map[], "text", "No content available");
    assert GetOr(full, "document_id", "Unknown") == GetOr(map[], "document_id", "Unknown");
    assert GetOr(full, "chunk_id", "Unknown") == GetOr(map[], "chunk_id", "Unknown");
  }
}
