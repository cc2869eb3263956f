/** The `retrieve_documents` tool of the agentic workflow: it embeds the
    query, searches the chunk store, and renders the hits as passages, each
    headed by a synthetic chunk id that the answer step may cite. */
module RetrievalTool {
  import opened Wrappers
  import opened Strings
  import opened Documents
  import opened AgentPorts

  const ErrorPrefix: string := "Error retrieving documents: "
  const NoDocuments: string :=
    "No relevant documents found "
    + "for the query."
  const PassageSeparator: string := "\n\n"

  /** Python's `hash(text) % 10000`: the divisor is positive, so the result
      lies in [0, 10000) whatever the sign of the hash. */
  function HashPart(text: string, hash: string -> int): (h: nat)
    ensures h < 10000
  {
    hash(text) % 10000
  }

  /** The synthetic id `chunk_{rank}_{hash(text) % 10000}` of the chunk at a
      1-based rank. */
  function ChunkId(rank: nat, text: string, hash: string -> int): string {
    "chunk_" + NatToString(rank) + "_" + NatToString(HashPart(text, hash))
  }

  /** In a digit string followed by "_", the first "_" is the one after the digits. */
  lemma FirstUnderscore(a: string, x: string)
    requires AllDigits(a)
    ensures (a + "_" + x)[|a|] == '_'
    ensures forall i :: 0 <= i < |a| ==> (a + "_" + x)[i] != '_'
  {
  }

  /** Two digit strings each followed by "_" can only line up if they are equal. */
  lemma DigitsBeforeUnderscore(a: string, x: string, b: string, y: string)
    requires AllDigits(a) && AllDigits(b)
    requires a + "_" + x == b + "_" + y
    ensures a == b
  {
    var s := a + "_" + x;
    FirstUnderscore(a, x);
    FirstUnderscore(b, y);
    assert |a| >= |b| by { assert s[|a|] == '_'; }
    assert |b| >= |a| by { assert s[|b|] == '_'; }
    assert a == s[..|a|] == (b + "_" + y)[..|b|] == b;
  }

  /** Ids of different ranks differ, whatever the texts and their hashes, so
      the ids of one retrieval batch are pairwise distinct. */
  lemma ChunkIdsDistinct(i: nat, ti: string, j: nat, tj: string, hash: string -> int)
    requires i != j
    ensures ChunkId(i, ti, hash) != ChunkId(j, tj, hash)
  {
    if ChunkId(i, ti, hash) == ChunkId(j, tj, hash) {
      var p := "chunk_";
      var si := NatToString(i) + "_" + NatToString(HashPart(ti, hash));
      var sj := NatToString(j) + "_" + NatToString(HashPart(tj, hash));
      assert ChunkId(i, ti, hash) == p + si && ChunkId(j, tj, hash) == p + sj;
      assert si == (p + si)[|p|..] == (p + sj)[|p|..] == sj;
      DigitsBeforeUnderscore(NatToString(i), NatToString(HashPart(ti, hash)),
                             NatToString(j), NatToString(HashPart(tj, hash)));
      NatToStringInjective(i, j);
    }
  }

  /** str() of a list of strings: the repr() of each, joined by ", ", in
      brackets. */
  function ListRepr(xs: seq<string>): string {
    "[" + Join(seq(|xs|, i requires 0 <= i < |xs| => StrRepr(xs[i])), ", ") + "]"
  }

  /** A list of one or two headings is written as the repr() of each. */
  lemma ListReprSmall(a: string, b: string)
    ensures ListRepr([a]) == "[" + StrRepr(a) + "]"
    ensures ListRepr([a, b]) == "[" + StrRepr(a) + ", " + StrRepr(b) + "]"
  {
    var two := seq(2, i requires 0 <= i < 2 => StrRepr([a, b][i]));
    assert two == [StrRepr(a), StrRepr(b)];
    assert Join(two, ", ") == StrRepr(a) + ", " + Join(two[1..], ", ");
    var one := seq(1, i requires 0 <= i < 1 => StrRepr([a][i]));
    assert one == [StrRepr(a)];
  }

  /** A heading with a backslash: the backslash is doubled. */
  lemma BackslashDoubled()
    ensures StrRepr("a\\b") == "'a\\\\b'"
  {
    var s := "a\\b";
    assert s[1..] == "\\b" && s[2..] == "b";
    assert EscapeBody(s, '\'') == "a\\\\b";
  }

  /** A heading with an apostrophe goes in double quotes. */
  lemma ApostropheHeading()
    ensures StrRepr("It's") == "\"It's\""
  {
    var s := "It's";
    assert s[2] == '\'';
    assert forall k :: 0 <= k < |s| ==> PlainIn(s[k], '"');
    ApostropheInDoubleQuotes(s);
  }

  /** A headings list holding an apostrophe goes in double quotes. */
  lemma ApostropheHeadingListed()
    ensures ListRepr(["It's"]) == "[\"It's\"]"
  {
    ListReprSmall("It's", "");
    ApostropheHeading();
    assert "[" + "\"It's\"" + "]" == "[\"It's\"]";
  }

  /** A headings list holding a backslash has it doubled. */
  lemma BackslashHeadingListed()
    ensures ListRepr(["a\\b"]) == "['a\\\\b']"
  {
    ListReprSmall("a\\b", "");
    BackslashDoubled();
    assert "[" + "'a\\\\b'" + "]" == "['a\\\\b']";
  }

  predicate HasHeadings(c: DocChunk) {
    c.meta.headings.Some? && |c.meta.headings.value| > 0
  }

  function PassageHead(rank: nat, c: DocChunk, hash: string -> int): string {
    "[CHUNK_ID: " + ChunkId(rank, c.text, hash) + "]"
  }

  /** What follows the rank in a passage's "Document n" line. */
  function RankSuffix(c: DocChunk): string {
    if HasHeadings(c) then " (Headings: " + ListRepr(c.meta.headings.value) + "):\n" else ":\n"
  }

  /** The passage for the chunk at a 1-based rank: its id line, a "Document
      n" line naming the headings when there are some, then the text. */
  function Passage(rank: nat, c: DocChunk, hash: string -> int): string {
    PassageHead(rank, c, hash) + "\nDocument " + NatToString(rank) + RankSuffix(c) + c.text
  }

  lemma PassageSpelled(rank: nat, c: DocChunk, hash: string -> int)
    ensures Passage(rank, c, hash)
      == "[CHUNK_ID: " + ChunkId(rank, c.text, hash) + "]" + "\nDocument " + NatToString(rank) + RankSuffix(c) + c.text
  {
  }

  /** A passage opens with its chunk's id line and ends with the chunk's text. */
  lemma PassageFrame(rank: nat, c: DocChunk, hash: string -> int)
    ensures var r := Passage(rank, c, hash); var head := PassageHead(rank, c, hash);
      |r| >= |head| + |c.text| && r[..|head|] == head && r[|r| - |c.text|..] == c.text
  {
    var head := PassageHead(rank, c, hash);
    var mid := "\nDocument " + NatToString(rank) + RankSuffix(c);
    assert Passage(rank, c, hash) == head + mid + c.text;
  }

  /** The passages of a result list, in rank order, ranks counted from 1. */
  function Passages(chunks: seq<DocChunk>, hash: string -> int): (r: seq<string>)
    ensures |r| == |chunks|
    ensures forall k :: 0 <= k < |chunks| ==> r[k] == Passage(k + 1, chunks[k], hash)
  {
    seq(|chunks|, k requires 0 <= k < |chunks| => Passage(k + 1, chunks[k], hash))
  }

  /** What the tool returns for a query, given the embedding and search ports. */
  function RetrievalText(ports: Ports, query: string): string {
    match ports.embedSingle(query)
    case Raised(e) => ErrorPrefix + e
    case Ok(vector) =>
      match ports.searchChunks(query, vector)
      case Raised(e) => ErrorPrefix + e
      case Ok(chunks) =>
        if |chunks| == 0 then NoDocuments else Join(Passages(chunks, ports.hash), PassageSeparator)
  }

  lemma JoinStartsWithFirst(parts: seq<string>, sep: string)
    requires |parts| > 0
    ensures |Join(parts, sep)| >= |parts[0]| && Join(parts, sep)[..|parts[0]|] == parts[0]
  {
    if |parts| > 1 {
      assert Join(parts, sep) == parts[0] + (sep + Join(parts[1..], sep));
    }
  }

  /** The three kinds of reply can be told apart by their first character:
      a reply starts with the error prefix exactly when a port raised, is the
      no-documents sentence exactly when the search found nothing, and
      otherwise begins with the first chunk's id line. */
  lemma RetrievalTextKinds(ports: Ports, query: string)
    ensures var r := RetrievalText(ports, query);
      var failed := ports.embedSingle(query).Raised?
        || ports.searchChunks(query, ports.embedSingle(query).value).Raised?;
      (failed <==> |r| >= |ErrorPrefix| && r[..|ErrorPrefix|] == ErrorPrefix)
      && (failed ==> r == ErrorPrefix + (if ports.embedSingle(query).Raised? then ports.embedSingle(query).error
                                         else ports.searchChunks(query, ports.embedSingle(query).value).error))
      && (!failed ==> var chunks := ports.searchChunks(query, ports.embedSingle(query).value).value;
            (r == NoDocuments <==> |chunks| == 0)
            && (|chunks| > 0 ==> (r == Join(Passages(chunks, ports.hash), PassageSeparator)
                  && r[..|PassageHead(1, chunks[0], ports.hash)|] == PassageHead(1, chunks[0], ports.hash))))
  {
    var r := RetrievalText(ports, query);
    if !ports.embedSingle(query).Raised? {
      var vector := ports.embedSingle(query).value;
      if !ports.searchChunks(query, vector).Raised? {
        var chunks := ports.searchChunks(query, vector).value;
        if |chunks| > 0 {
          var ps := Passages(chunks, ports.hash);
          JoinStartsWithFirst(ps, PassageSeparator);
          PassageFrame(1, chunks[0], ports.hash);
          var head := PassageHead(1, chunks[0], ports.hash);
          assert r[..|head|] == ps[0][..|head|] == head;
          assert r[0] == head[0] == '[';
          assert r != NoDocuments by { assert NoDocuments[0] == 'N'; }
          assert ErrorPrefix[0] == 'E';
        } else {
          assert r[..|ErrorPrefix|][0] == 'N' != ErrorPrefix[0];
        }
      } else {
        assert r[..|ErrorPrefix|] == ErrorPrefix;
      }
    } else {
      assert r[..|ErrorPrefix|] == ErrorPrefix;
    }
  }

  /** The tool itself: the loop renders the passages one rank at a time. */
  method RetrieveDocuments(ports: Ports, query: string) returns (r: string)
    ensures r == RetrievalText(ports, query)
  {
    var vector := ports.embedSingle(query);
    if vector.Raised? {
      return ErrorPrefix + vector.error;
    }
    var found := ports.searchChunks(query, vector.value);
    if found.Raised? {
      return ErrorPrefix + found.error;
    }
    var chunks := found.value;
    if |chunks| == 0 {
      return NoDocuments;
    }
    var formatted: seq<string> := [];
    var i := 0;
    while i < |chunks|
      invariant 0 <= i <= |chunks|
      invariant |formatted| == i
      invariant forall k :: 0 <= k < i ==> formatted[k] == Passage(k + 1, chunks[k], ports.hash)
    {
      var rank := i + 1;
      var chunk := chunks[i];
      var chunkId := "chunk_" + NatToString(rank) + "_" + NatToString(ports.hash(chunk.text) % 10000);
      assert chunkId == ChunkId(rank, chunk.text, ports.hash);
      var line := "[CHUNK_ID: " + chunkId + "]" + "\nDocument " + NatToString(rank);
      var suffix := ":\n";
      if chunk.meta.headings.Some? && |chunk.meta.headings.value| > 0 {
        suffix := " (Headings: " + ListRepr(chunk.meta.headings.value) + "):\n";
      }
      var content := line + suffix + chunk.text;
      PassageSpelled(rank, chunk, ports.hash);
      formatted := formatted + [content];
      i := i + 1;
    }
    assert formatted == Passages(chunks, ports.hash);
    r := Join(formatted, PassageSeparator);
  }
}
