/** The search-engine adaptor: the query it builds for a chunk search, the
    filter clauses it derives from a filter dictionary, how it reads a search
    result, and how it judges the store's answer to an index request. The
    store itself is a parameter. */
module ElasticsearchAdaptor {
  import opened Wrappers
  import opened Strings
  import opened Json
  import opened Documents

  /** A Python dictionary's items, in insertion order. */
  type Items = seq<(string, Json)>

  datatype SearchRequest = SearchRequest(
    query: Option<string>, vector: Option<seq<real>>, filters: Option<Items>,
    size: int, indexName: Option<string>)

  // Python truthiness of the request's optional parts
  predicate HasQuery(r: SearchRequest) {
    r.query.Some? && |r.query.value| > 0
  }

  predicate HasVector(r: SearchRequest) {
    r.vector.Some? && |r.vector.value| > 0
  }

  predicate HasFilters(r: SearchRequest) {
    r.filters.Some? && |r.filters.value| > 0
  }

  // ---------------------------------------------------------------------
  // _build_filters
  // ---------------------------------------------------------------------

  /** The clause for one filter entry: a dictionary value is used as the
      clause body for its field (a range, say), a list becomes a `terms`
      clause, anything else a `term` clause. */
  function FilterClause(field: string, value: Json): Json {
    if value.Obj? then Obj(map[field := value])
    else if value.Arr? then Obj(map["terms" := Obj(map[field := value])])
    else Obj(map["term" := Obj(map[field := value])])
  }

  /** The clauses of a filter dictionary, built entry by entry. */
  function FilterClauses(filters: Items): seq<Json> {
    if |filters| == 0 then []
    else
      var last := filters[|filters| - 1];
      FilterClauses(filters[..|filters| - 1]) + [FilterClause(last.0, last.1)]
  }

  /** What a clause says about a field: the value the clause constrains the
      field to, or None when the clause does not mention the field. */
  function ConstraintOn(clause: Json, field: string): Option<Json> {
    if !clause.Obj? then None
    else if "terms" in clause.o && clause.o["terms"].Obj? && field in clause.o["terms"].o
      && clause.o["terms"].o[field].Arr? then Some(clause.o["terms"].o[field])
    else if "term" in clause.o && clause.o["term"].Obj? && field in clause.o["term"].o
      && !clause.o["term"].o[field].Arr? && !clause.o["term"].o[field].Obj? then Some(clause.o["term"].o[field])
    else if field in clause.o && clause.o[field].Obj? then Some(clause.o[field])
    else None
  }

  /** A filter clause constrains its own field to exactly the given value;
      only a dictionary-valued filter on a field named `term` or `terms` is
      read back differently, because its clause looks like a term clause. */
  lemma FilterClauseRead(field: string, value: Json)
    requires !(value.Obj? && (field == "term" || field == "terms"))
    ensures var c := FilterClause(field, value);
      c.Obj? && |c.o| == 1 && ConstraintOn(c, field) == Some(value)
  {
    var c := FilterClause(field, value);
    if value.Obj? {
      assert c.o.Keys == {field};
    } else if value.Arr? {
      assert c.o.Keys == {"terms"};
    } else {
      assert c.o.Keys == {"term"};
    }
  }

  /** One clause per entry, in entry order, each constraining the entry's
      field to the entry's value. */
  lemma {:induction false} FilterClausesEach(filters: Items)
    ensures var cs := FilterClauses(filters);
      |cs| == |filters|
      && forall k :: 0 <= k < |filters| ==> cs[k] == FilterClause(filters[k].0, filters[k].1)
  {
    if |filters| > 0 {
      var init := filters[..|filters| - 1];
      FilterClausesEach(init);
      assert forall k :: 0 <= k < |init| ==> init[k] == filters[k];
    }
  }

  /** _build_filters: the loop appends one clause per entry. */
  method BuildFilters(filters: Items) returns (filterList: seq<Json>)
    ensures filterList == FilterClauses(filters)
  {
    filterList := [];
    var i := 0;
    while i < |filters|
      invariant 0 <= i <= |filters|
      invariant filterList == FilterClauses(filters[..i])
    {
      var field := filters[i].0;
      var value := filters[i].1;
      if value.Obj? {
        filterList := filterList + [Obj(map[field := value])];
      } else if value.Arr? {
        filterList := filterList + [Obj(map["terms" := Obj(map[field := value])])];
      } else {
        filterList := filterList + [Obj(map["term" := Obj(map[field := value])])];
      }
      assert filters[..i + 1][..i] == filters[..i];
      i := i + 1;
    }
    assert filters[..i] == filters;
  }

  // ---------------------------------------------------------------------
  // _build_chunk_search_query
  // ---------------------------------------------------------------------

  /** The clause every chunk query requires: the document is a chunk. */
  const ChunkExists: Json := Obj(map["exists" := Obj(map["field" := Str("chunk")])])

  function Match(field: string, query: Json): Json {
    Obj(map["match" := Obj(map[field := query])])
  }

  function BoostedMatch(field: string, query: string, boost: real): Json {
    Match(field, Obj(map["query" := Str(query), "boost" := Float(boost)]))
  }

  function FiltersOf(r: SearchRequest): seq<Json> {
    if HasFilters(r) then FilterClauses(r.filters.value) else []
  }

  /** The scoring part of the text query: chunks only, ranked by matches on
      the text and, with more weight, on the headings. */
  function TextBool(q: string): Dict {
    map["must" := Arr([ChunkExists]),
        "should" := Arr([BoostedMatch("chunk.text", q, 1.0), BoostedMatch("chunk.meta.headings", q, 1.5)])]
  }

  /** The text query, with the user filters as a filter list. */
  function TextQuery(r: SearchRequest): Json
    requires HasQuery(r)
  {
    var b := TextBool(r.query.value);
    Obj(map["bool" := Obj(if HasFilters(r) then b["filter" := Arr(FiltersOf(r))] else b)])
  }

  /** The filter of a vector-only search: chunks only, and the user's
      filters when there are some. */
  function KnnFilter(r: SearchRequest): Json {
    if HasFilters(r) then Obj(map["bool" := Obj(map["must" := Arr([ChunkExists] + FiltersOf(r))])])
    else ChunkExists
  }

  /** The filter of a hybrid search: chunks only, with the user's filters,
      preferring text or heading matches on the query. */
  function HybridFilter(r: SearchRequest): Json
    requires HasQuery(r)
  {
    var q := Str(r.query.value);
    Obj(map["bool" := Obj(map["must" := Arr([ChunkExists] + FiltersOf(r)),
                              "should" := Arr([Match("chunk.text", q), Match("chunk.meta.headings", q)])])])
  }

  /** The vector query: the k = size nearest chunk vectors out of ten times
      as many candidates, among the hits of the filter. */
  function KnnFields(r: SearchRequest, filter: Json): Dict
    requires HasVector(r)
  {
    map["field" := Str("chunk.vector"), "query_vector" := RealList(r.vector.value),
        "k" := Int(r.size), "num_candidates" := Int(r.size * 10), "filter" := filter]
  }

  lemma Refilter(r: SearchRequest, f: Json, g: Json)
    requires HasVector(r)
    ensures KnnFields(r, f)["filter" := g] == KnnFields(r, g)
  {
  }

  /** The query parts of a chunk search: a text query alone, a vector query
      alone, a vector query whose filter carries the text (both given), or
      nothing at all. */
  function ChunkSearchQuery(r: SearchRequest): Dict {
    if HasVector(r) then
      map["knn" := Obj(KnnFields(r, if HasQuery(r) then HybridFilter(r) else KnnFilter(r)))]
    else if HasQuery(r) then map["query" := TextQuery(r)]
    else map[]
  }

  /** _build_chunk_search_query, step by step: build the text query, build
      the vector query, and for a hybrid search swap the vector query's
      filter and drop the text query. */
  method BuildChunkSearchQuery(r: SearchRequest) returns (queryParts: Dict)
    ensures queryParts == ChunkSearchQuery(r)
  {
    queryParts := map[];
    if r.query.Some? && |r.query.value| > 0 {
      var b := TextBool(r.query.value);
      if r.filters.Some? && |r.filters.value| > 0 {
        var fs := BuildFilters(r.filters.value);
        b := b["filter" := Arr(fs)];
      }
      queryParts := queryParts["query" := Obj(map["bool" := Obj(b)])];
      assert queryParts == map["query" := TextQuery(r)];
    }
    if r.vector.Some? && |r.vector.value| > 0 {
      var knn := KnnFields(r, ChunkExists);
      if r.filters.Some? && |r.filters.value| > 0 {
        var additional := BuildFilters(r.filters.value);
        Refilter(r, ChunkExists, Obj(map["bool" := Obj(map["must" := Arr([ChunkExists] + additional)])]));
        knn := knn["filter" := Obj(map["bool" := Obj(map["must" := Arr([ChunkExists] + additional)])])];
      }
      assert knn == KnnFields(r, KnnFilter(r));
      queryParts := queryParts["knn" := Obj(knn)];
      if r.query.Some? && |r.query.value| > 0 {
        var q := Str(r.query.value);
        var must := [ChunkExists];
        if r.filters.Some? && |r.filters.value| > 0 {
          var existing := BuildFilters(r.filters.value);
          must := must + existing;
        }
        assert must == [ChunkExists] + FiltersOf(r);
        var hybrid := Obj(map["bool" := Obj(map["must" := Arr(must),
                                                "should" := Arr([Match("chunk.text", q), Match("chunk.meta.headings", q)])])]);
        assert hybrid == HybridFilter(r);
        Refilter(r, KnnFilter(r), hybrid);
        knn := knn["filter" := hybrid];
        queryParts := queryParts["knn" := Obj(knn)];
        queryParts := queryParts - {"query"};
        assert queryParts == map["knn" := Obj(knn)];
      }
    }
  }

  /** The clauses a filter requires of every hit: the must and filter lists
      of a bool filter, or the filter itself. */
  function Required(filter: Json): seq<Json> {
    if filter.Obj? && "bool" in filter.o && filter.o["bool"].Obj? then
      var b := filter.o["bool"].o;
      (if "must" in b && b["must"].Arr? then b["must"].a else [])
      + (if "filter" in b && b["filter"].Arr? then b["filter"].a else [])
    else [filter]
  }

  /** The part of the query that filters hits: the text query itself, or
      the vector query's filter. */
  function Filtering(parts: Dict): Json {
    if "knn" in parts && parts["knn"].Obj? && "filter" in parts["knn"].o then parts["knn"].o["filter"]
    else if "query" in parts then parts["query"]
    else Null
  }

  /** The three search modes exclude each other: a vector gives a vector
      query only (k = size, ten times as many candidates), text alone gives
      a text query only, neither gives the empty dictionary. */
  lemma ChunkSearchQueryModes(r: SearchRequest)
    ensures var parts := ChunkSearchQuery(r);
      parts.Keys == (if HasVector(r) then {"knn"} else if HasQuery(r) then {"query"} else {})
      && (HasVector(r) ==>
            parts["knn"].Obj? && parts["knn"].o["k"] == Int(r.size)
            && parts["knn"].o["num_candidates"] == Int(10 * r.size)
            && parts["knn"].o["query_vector"] == RealList(r.vector.value))
  {
    var parts := ChunkSearchQuery(r);
    if HasVector(r) {
      assert parts.Keys == {"knn"};
    } else if HasQuery(r) {
      assert parts.Keys == {"query"};
    }
  }

  /** Whatever the mode, the query admits chunks only and requires every
      user filter. */
  lemma ChunkSearchQueryRestricts(r: SearchRequest)
    requires HasVector(r) || HasQuery(r)
    ensures var req := Required(Filtering(ChunkSearchQuery(r)));
      |req| > 0 && req[0] == ChunkExists && forall c :: c in FiltersOf(r) ==> c in req
  {
    var parts := ChunkSearchQuery(r);
    if HasVector(r) {
      var f := if HasQuery(r) then HybridFilter(r) else KnnFilter(r);
      assert Filtering(parts) == f;
      if HasQuery(r) || HasFilters(r) {
        assert Required(f) == [ChunkExists] + FiltersOf(r);
      } else {
        assert Required(f) == [ChunkExists];
      }
    } else {
      assert Filtering(parts) == TextQuery(r);
      assert Required(TextQuery(r)) == [ChunkExists] + FiltersOf(r);
    }
  }

  /** The text query ranks on the query text in the chunk's text and, with
      the larger boost, in its headings. */
  lemma TextQueryRanks(r: SearchRequest)
    requires HasQuery(r) && !HasVector(r)
    ensures var q := ChunkSearchQuery(r)["query"];
      q.Obj? && q.o["bool"].Obj? && q.o["bool"].o["should"]
        == Arr([BoostedMatch("chunk.text", r.query.value, 1.0), BoostedMatch("chunk.meta.headings", r.query.value, 1.5)])
  {
  }

  // ---------------------------------------------------------------------
  // search_chunks
  // ---------------------------------------------------------------------

  datatype SearchHit = SearchHit(id: string, score: real, source: Dict, highlight: Option<map<string, seq<string>>>)

  datatype SearchResponse = SearchResponse(hits: seq<SearchHit>, total: int, maxScore: Option<real>)

  const NoHits: SearchResponse := SearchResponse([], 0, None)

  /** `request.index_name or default`: an empty name falls back too. */
  function IndexOr(name: Option<string>, default: string): string {
    if name.Some? && |name.value| > 0 then name.value else default
  }

  const Highlight: Json :=
    Obj(map["fields" := Obj(map["chunk.text" := Obj(map["fragment_size" := Int(150), "number_of_fragments" := Int(3)])])])

  /** The arguments of the search call: the text query (null when there is
      none), the highlight request, and the vector query when one was built
      for a non-empty vector. */
  function SearchParams(r: SearchRequest, defaultIndex: string): Dict {
    var query := ChunkSearchQuery(r);
    var params := map["index" := Str(IndexOr(r.indexName, defaultIndex)), "size" := Int(r.size),
                      "query" := GetOrNull(query, "query"), "highlight" := Highlight];
    if HasVector(r) && "knn" in query then params["knn" := query["knn"]] else params
  }

  /** The search call carries a vector query exactly when the request has a
      vector, and then no text query; without a vector it carries the text
      query exactly when there is text. */
  lemma SearchParamsShape(r: SearchRequest, defaultIndex: string)
    ensures var p := SearchParams(r, defaultIndex);
      ("knn" in p <==> HasVector(r))
      && (p["query"] != Null <==> !HasVector(r) && HasQuery(r))
      && p["size"] == Int(r.size)
  {
    ChunkSearchQueryModes(r);
  }

  /** A highlight is absent or null, or maps fields to lists of fragments. */
  function AsHighlight(j: Json): Option<Option<map<string, seq<string>>>> {
    if j.Null? then Some(None)
    else if j.Obj? && forall k :: k in j.o ==> AsStrList(j.o[k]).Some? then
      Some(Some(map k | k in j.o :: AsStrList(j.o[k]).value))
    else None
  }

  /** One hit of the result, or None where reading it raises (a missing
      key) or validating it fails. */
  function ParseHit(hit: Json): Option<SearchHit> {
    if !hit.Obj? || !("_id" in hit.o && "_score" in hit.o && "_source" in hit.o) then None
    else
      var id :- AsStr(hit.o["_id"]);
      var score :- AsReal(hit.o["_score"]);
      var source := hit.o["_source"];
      if !source.Obj? then None
      else
        var highlight :- AsHighlight(GetOrNull(hit.o, "highlight"));
        Some(SearchHit(id, score, source.o, highlight))
  }

  /** The hit list: every hit in order, or None when one of them fails. */
  function ParseHits(hits: seq<Json>): (r: Option<seq<SearchHit>>)
    ensures r.Some? ==> |r.value| == |hits|
  {
    if |hits| == 0 then Some([])
    else
      var init :- ParseHits(hits[..|hits| - 1]);
      var last :- ParseHit(hits[|hits| - 1]);
      Some(init + [last])
  }

  /** The hit list, its total and the best score, read from a result; None
      where reading raises. */
  function ParseSearchResult(result: Json): Option<SearchResponse> {
    if !result.Obj? || "hits" !in result.o || !result.o["hits"].Obj? then None
    else
      var h := result.o["hits"].o;
      if "hits" !in h || !h["hits"].Arr? || "total" !in h || !h["total"].Obj?
        || "value" !in h["total"].o || "max_score" !in h then None
      else
        var hits :- ParseHits(h["hits"].a);
        var total :- AsInt(h["total"].o["value"]);
        var maxScore :- if h["max_score"].Null? then Some(None) else (var m :- AsReal(h["max_score"]); Some(Some(m)));
        Some(SearchResponse(hits, total, maxScore))
  }

  /** Every hit is read in order; a hit that cannot be read fails the whole
      result. */
  lemma {:induction false} ParseHitsEach(hits: seq<Json>)
    ensures ParseHits(hits).Some? <==> forall k :: 0 <= k < |hits| ==> ParseHit(hits[k]).Some?
    ensures ParseHits(hits).Some? ==> forall k :: 0 <= k < |hits| ==> ParseHits(hits).value[k] == ParseHit(hits[k]).value
  {
    if |hits| > 0 {
      var init := hits[..|hits| - 1];
      ParseHitsEach(init);
      assert forall k :: 0 <= k < |init| ==> init[k] == hits[k];
    }
  }

  /** search_chunks: the search call's result read into a response; a
      failed call or a result that cannot be read gives no hits, total 0
      and no best score. */
  method SearchChunks(search: Dict -> Outcome<Json>, defaultIndex: string, r: SearchRequest)
    returns (response: SearchResponse)
    ensures match search(SearchParams(r, defaultIndex))
      case Raised(_) => response == NoHits
      case Ok(result) => response == ParseSearchResult(result).GetOr(NoHits)
  {
    var query := BuildChunkSearchQuery(r);
    var params := map["index" := Str(IndexOr(r.indexName, defaultIndex)), "size" := Int(r.size),
                      "query" := GetOrNull(query, "query"), "highlight" := Highlight];
    if r.vector.Some? && |r.vector.value| > 0 && "knn" in query {
      params := params["knn" := query["knn"]];
    }
    assert params == SearchParams(r, defaultIndex);
    var called := search(params);
    if called.Raised? {
      return NoHits;
    }
    var result := called.value;
    if !result.Obj? || "hits" !in result.o || !result.o["hits"].Obj?
      || "hits" !in result.o["hits"].o || !result.o["hits"].o["hits"].Arr? {
      return NoHits;
    }
    var raw := result.o["hits"].o["hits"].a;
    var hits: seq<SearchHit> := [];
    var i := 0;
    while i < |raw|
      invariant 0 <= i <= |raw|
      invariant ParseHits(raw[..i]) == Some(hits)
    {
      assert raw[..i + 1][..i] == raw[..i];
      var hit := ParseHit(raw[i]);
      if hit.None? {
        ParseHitsFailFrom(raw, i);
        return NoHits;
      }
      hits := hits + [hit.value];
      i := i + 1;
    }
    assert raw[..i] == raw;
    var h := result.o["hits"].o;
    if "total" !in h || !h["total"].Obj? || "value" !in h["total"].o || !h["total"].o["value"].Int?
      || "max_score" !in h {
      return NoHits;
    }
    var maxScore: Option<real> := None;
    if !h["max_score"].Null? {
      var m := AsReal(h["max_score"]);
      if m.None? {
        return NoHits;
      }
      maxScore := Some(m.value);
    }
    response := SearchResponse(hits, h["total"].o["value"].i, maxScore);
  }

  /** A hit that cannot be read fails every longer hit list. */
  lemma {:induction false} ParseHitsFailFrom(hits: seq<Json>, i: nat)
    requires i < |hits| && ParseHit(hits[i]).None?
    ensures ParseHits(hits).None?
  {
    ParseHitsEach(hits);
  }

  // ---------------------------------------------------------------------
  // index_document / index_chunk / index_text / index_picture / index_table
  // ---------------------------------------------------------------------

  /** The store's answer to an index request: its result dictionary, or
      the error it raised with the HTTP status it carried, if any. */
  datatype IndexCall = Indexed(result: Dict) | IndexFailed(error: string, status: Option<int>)

  /** The store's index and search calls, and Python's str() of a value. */
  datatype Store = Store(
    indexName: string,
    index: (string, string, Dict) -> IndexCall,
    search: Dict -> Outcome<Json>,
    show: Json -> string)

  datatype IndexResponse = IndexResponse(id: string, success: bool, message: Option<string>)

  /** An index request succeeded when the store reports the document as
      created or updated. */
  predicate IndexSucceeded(result: Dict) {
    "result" in result && (result["result"] == Str("created") || result["result"] == Str("updated"))
  }

  /** The word the response message reports: the store's result, or
      "processed" when it gave none. */
  function ResultWord(result: Dict, show: Json -> string): string {
    if "result" !in result then "processed"
    else if result["result"].Str? then result["result"].s
    else show(result["result"])
  }

  /** The response to an index request for an element of a kind ("Text",
      "Picture", ...): success as the store reports it, or the error text. */
  function ElementResponse(kind: string, id: string, call: IndexCall, show: Json -> string): (r: IndexResponse)
    ensures r.id == id
    ensures r.success <==> call.Indexed? && IndexSucceeded(call.result)
    ensures call.IndexFailed? ==> r.message == Some(call.error)
  {
    match call
    case Indexed(result) => IndexResponse(id, IndexSucceeded(result), Some(kind + " " + ResultWord(result, show)))
    case IndexFailed(e, _) => IndexResponse(id, false, Some(e))
  }

  function IndexText(store: Store, t: DocumentText, indexName: Option<string>): (r: IndexResponse)
    ensures var call := store.index(IndexOr(indexName, store.indexName), t.textId, EncodeText(t));
      r.id == t.textId && (r.success <==> call.Indexed? && IndexSucceeded(call.result))
  {
    ElementResponse("Text", t.textId, store.index(IndexOr(indexName, store.indexName), t.textId, EncodeText(t)), store.show)
  }

  function IndexPicture(store: Store, p: DocumentPicture, indexName: Option<string>): (r: IndexResponse)
    ensures var call := store.index(IndexOr(indexName, store.indexName), p.pictureId, EncodePicture(p));
      r.id == p.pictureId && (r.success <==> call.Indexed? && IndexSucceeded(call.result))
  {
    ElementResponse("Picture", p.pictureId, store.index(IndexOr(indexName, store.indexName), p.pictureId, EncodePicture(p)), store.show)
  }

  function IndexTable(store: Store, t: DocumentTable, indexName: Option<string>): (r: IndexResponse)
    ensures var call := store.index(IndexOr(indexName, store.indexName), t.tableId, EncodeTable(t));
      r.id == t.tableId && (r.success <==> call.Indexed? && IndexSucceeded(call.result))
  {
    ElementResponse("Table", t.tableId, store.index(IndexOr(indexName, store.indexName), t.tableId, EncodeTable(t)), store.show)
  }

  const TooLargeHint: string :=
    " - Document is too large. Consider "
    + "chunking the document or increasing "
    + "Elasticsearch's http.max_content_length "
    + "setting."

  /** The error message for a document the store refused: the id and the
      error, the size hint for status 413, and the status when there is one. */
  function DocumentError(id: string, error: string, status: Option<int>): string {
    "Failed to index document " + id + ": " + error
    + (if status == Some(413) then TooLargeHint else "")
    + (if status.Some? then " (HTTP " + IntToString(status.value) + ")" else "")
  }

  function IndexDocument(store: Store, doc: DoclingDocument, documentId: string, indexName: Option<string>): (r: IndexResponse)
    ensures var call := store.index(IndexOr(indexName, store.indexName), documentId, EncodeDocument(doc));
      r.id == documentId && (r.success <==> call.Indexed? && IndexSucceeded(call.result))
      && (call.IndexFailed? ==> r.message == Some(DocumentError(documentId, call.error, call.status)))
  {
    match store.index(IndexOr(indexName, store.indexName), documentId, EncodeDocument(doc))
    case Indexed(result) =>
      IndexResponse(documentId, IndexSucceeded(result), Some("Document " + ResultWord(result, store.show)))
    case IndexFailed(e, status) => IndexResponse(documentId, false, Some(DocumentError(documentId, e, status)))
  }

  /** The exception index_chunk raises before reaching the store:
      to_elastic_data takes no document id. */
  const ChunkEncodeError: string :=
    "DocChunk.to_elastic_data() got an "
    + "unexpected keyword argument 'document_id'"

  /** index_chunk as written: encoding the chunk is called with a keyword
      the encoder does not accept, so every request fails before the store
      is called, with the TypeError's text. */
  function IndexChunk(store: Store, c: DocChunk, chunkId: string, documentId: Option<string>, indexName: Option<string>): (r: IndexResponse)
    ensures r.id == chunkId && !r.success && r.message == Some(ChunkEncodeError)
  {
    IndexResponse(chunkId, false, Some(ChunkEncodeError))
  }

  /** index_chunk as intended: the chunk's own encoding is sent under the
      chunk id, and success is what the store reports. */
  function IndexChunkIntended(store: Store, c: DocChunk, chunkId: string, indexName: Option<string>): (r: IndexResponse)
    ensures var call := store.index(IndexOr(indexName, store.indexName), chunkId, EncodeChunk(c));
      r.id == chunkId && (r.success <==> call.Indexed? && IndexSucceeded(call.result))
  {
    ElementResponse("Chunk", chunkId, store.index(IndexOr(indexName, store.indexName), chunkId, EncodeChunk(c)), store.show)
  }

  /** The chunk index request as written fails even when the store would
      have created the chunk. */
  lemma IndexChunkNeverSucceeds(store: Store, c: DocChunk, chunkId: string, indexName: Option<string>)
    requires store.index(IndexOr(indexName, store.indexName), chunkId, EncodeChunk(c)) == Indexed(map["result" := Str("created")])
    ensures !IndexChunk(store, c, chunkId, None, indexName).success
    ensures IndexChunkIntended(store, c, chunkId, indexName).success
  {
  }
}
