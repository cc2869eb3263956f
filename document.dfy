/** The document entities and their codecs for the search-engine index: each
    entity is written as a JSON-like dictionary (`to_elastic_data`) and read
    back from a search hit (`from_elastic_hit`). A decoder returns None where
    the Python classmethod raises. It also returns None for the few inputs
    that pydantic's lax coercion or `str()` would accept, and that `AsInt`
    and `PyStrOf` reject: an integral float or a numeric string where an
    integer is expected, and a uri that is not a string. */
module Documents {
  import opened Wrappers
  import opened Strings
  import opened Json

  datatype DocumentOrigin = DocumentOrigin(mimetype: string, binaryHash: int, filename: string)

  datatype BoundingBox = BoundingBox(left: real, top: real, right: real, bottom: real, coordOrigin: string)

  datatype Provenance = Provenance(pageNo: int, bbox: BoundingBox, charspan: seq<int>)

  datatype DocumentText = DocumentText(
    textId: string, documentId: string, text: string, itemLabel: string,
    level: Option<int>, prov: seq<Provenance>, orig: Option<string>,
    parentRef: Option<string>, childrenRefs: seq<string>)

  datatype ImageData = ImageData(mimetype: string, dpi: int, size: map<string, int>, uri: string)

  datatype DocumentPicture = DocumentPicture(
    pictureId: string, documentId: string, itemLabel: string, prov: seq<Provenance>,
    image: Option<ImageData>, captions: seq<string>, references: seq<string>,
    footnotes: seq<string>, annotations: seq<Dict>, parentRef: Option<string>,
    childrenRefs: seq<string>)

  datatype TableCell = TableCell(
    bbox: BoundingBox, rowSpan: int, colSpan: int,
    startRowOffsetIdx: int, endRowOffsetIdx: int,
    startColOffsetIdx: int, endColOffsetIdx: int,
    text: string, columnHeader: bool, rowHeader: bool, rowSection: bool)

  datatype TableData = TableData(tableCells: seq<TableCell>, numRows: int, numCols: int, grid: seq<seq<Dict>>)

  datatype DocumentTable = DocumentTable(
    tableId: string, documentId: string, itemLabel: string, prov: seq<Provenance>,
    data: Option<TableData>, captions: seq<string>, references: seq<string>,
    footnotes: seq<string>, annotations: seq<Dict>, parentRef: Option<string>,
    childrenRefs: seq<string>)

  datatype DoclingDocument = DoclingDocument(
    schemaName: string, version: string, name: string, origin: Option<DocumentOrigin>,
    furniture: Dict, body: Dict, groups: seq<Dict>, keyValueItems: seq<Dict>,
    formItems: seq<Dict>, pages: Dict)

  datatype DocMeta = DocMeta(
    schemaName: string, version: string, docItems: seq<Dict>,
    headings: Option<seq<string>>, origin: Option<DocumentOrigin>)

  /** A retrievable piece of a document, with its embedding once computed. */
  datatype DocChunk = DocChunk(
    chunkId: Option<string>, text: string, meta: DocMeta, documentId: string,
    vector: Option<seq<real>>)

  // ---------------------------------------------------------------------
  // Lists of nested records
  // ---------------------------------------------------------------------

  function EncodeEach<T>(xs: seq<T>, enc: T -> Dict): (r: Json)
    ensures r.Arr? && |r.a| == |xs|
  {
    Arr(seq(|xs|, i requires 0 <= i < |xs| => Obj(enc(xs[i]))))
  }

  /** Decodes each element of a list of dictionaries in turn; the first
      element that is not a dictionary, or does not decode, fails the whole. */
  function DecodeEach<T>(xs: seq<Json>, dec: Dict -> Option<T>): (r: Option<seq<T>>)
    ensures r.Some? ==> |r.value| == |xs|
  {
    if |xs| == 0 then Some([])
    else if !xs[0].Obj? then None
    else
      var head :- dec(xs[0].o);
      var tail :- DecodeEach(xs[1..], dec);
      Some([head] + tail)
  }

  /** A comprehension `[dec(x) for x in j]`: an empty string or dictionary
      iterates to nothing, a non-empty one yields elements that are not
      dictionaries, and anything that is not iterable raises. */
  function IterDicts<T>(j: Json, dec: Dict -> Option<T>): Option<seq<T>> {
    match j
    case Arr(a) => DecodeEach(a, dec)
    case Str(s) => if |s| == 0 then Some([]) else None
    case Obj(o) => if |o| == 0 then Some([]) else None
    case _ => None
  }

  lemma {:induction false} EachRoundTrip<T>(xs: seq<T>, enc: T -> Dict, dec: Dict -> Option<T>)
    requires forall x :: dec(enc(x)) == Some(x)
    ensures DecodeEach(EncodeEach(xs, enc).a, dec) == Some(xs)
    decreases |xs|
  {
    var a := EncodeEach(xs, enc).a;
    if |xs| > 0 {
      assert a[0] == Obj(enc(xs[0]));
      assert a[1..] == EncodeEach(xs[1..], enc).a;
      EachRoundTrip(xs[1..], enc, dec);
      assert xs == [xs[0]] + xs[1..];
    }
  }

  /** When every element is a dictionary that decodes, the result lists the
      decoded elements one for one, in order. */
  lemma {:induction false} DecodeEachAll<T>(xs: seq<Json>, dec: Dict -> Option<T>)
    requires forall k :: 0 <= k < |xs| ==> xs[k].Obj? && dec(xs[k].o).Some?
    ensures DecodeEach(xs, dec).Some?
    ensures forall k :: 0 <= k < |xs| ==> DecodeEach(xs, dec).value[k] == dec(xs[k].o).value
    decreases |xs|
  {
    if |xs| > 0 {
      var rest := xs[1..];
      DecodeEachAll(rest, dec);
      assert DecodeEach(xs, dec) == Some([dec(xs[0].o).value] + DecodeEach(rest, dec).value);
    }
  }

  // ---------------------------------------------------------------------
  // Bounding boxes, provenance, origins
  // ---------------------------------------------------------------------

  function EncodeBoundingBox(b: BoundingBox): Dict {
    map["left" := Float(b.left), "top" := Float(b.top), "right" := Float(b.right),
        "bottom" := Float(b.bottom), "coord_origin" := Str(b.coordOrigin)]
  }

  /** BoundingBox.from_elastic_data: each side under its long name, else its
      one-letter name, else 0; the origin defaults to "TOPLEFT". */
  function DecodeBoundingBox(d: Dict): Option<BoundingBox> {
    var left :- AsReal(Get(d, "left", Get(d, "l", Int(0))));
    var top :- AsReal(Get(d, "top", Get(d, "t", Int(0))));
    var right :- AsReal(Get(d, "right", Get(d, "r", Int(0))));
    var bottom :- AsReal(Get(d, "bottom", Get(d, "b", Int(0))));
    var coordOrigin :- GetStr(d, "coord_origin", "TOPLEFT");
    Some(BoundingBox(left, top, right, bottom, coordOrigin))
  }

  lemma BoundingBoxRoundTrip(b: BoundingBox)
    ensures DecodeBoundingBox(EncodeBoundingBox(b)) == Some(b)
  {
  }

  /** The long names win over the one-letter names. */
  lemma BoundingBoxPrefersLongNames(d: Dict, l: real, t: real, r: real, b: real)
    requires "left" in d && d["left"] == Float(l) && "top" in d && d["top"] == Float(t)
    requires "right" in d && d["right"] == Float(r) && "bottom" in d && d["bottom"] == Float(b)
    requires "coord_origin" !in d
    ensures DecodeBoundingBox(d) == Some(BoundingBox(l, t, r, b, "TOPLEFT"))
  {
  }

  /** The one-letter names (as written by the document converter) are read
      when the long ones are absent. */
  lemma BoundingBoxShortNames(l: real, t: real, r: real, b: real, origin: string)
    ensures DecodeBoundingBox(map["l" := Float(l), "t" := Float(t), "r" := Float(r),
                                  "b" := Float(b), "coord_origin" := Str(origin)])
            == Some(BoundingBox(l, t, r, b, origin))
  {
  }

  lemma BoundingBoxEmpty()
    ensures DecodeBoundingBox(map[]) == Some(BoundingBox(0.0, 0.0, 0.0, 0.0, "TOPLEFT"))
  {
  }

  function EncodeProvenance(p: Provenance): Dict {
    map["page_no" := Int(p.pageNo), "bbox" := Obj(EncodeBoundingBox(p.bbox)), "charspan" := IntList(p.charspan)]
  }

  /** Provenance.from_elastic_data: page 1 and character span [0, 0] by default. */
  function DecodeProvenance(d: Dict): Option<Provenance> {
    var bboxData :- GetDict(d, "bbox");
    var bbox :- DecodeBoundingBox(bboxData);
    var pageNo :- GetInt(d, "page_no", 1);
    var charspan :- AsIntList(Get(d, "charspan", IntList([0, 0])));
    Some(Provenance(pageNo, bbox, charspan))
  }

  lemma ProvenanceRoundTrip(p: Provenance)
    ensures DecodeProvenance(EncodeProvenance(p)) == Some(p)
  {
    BoundingBoxRoundTrip(p.bbox);
    IntListRoundTrip(p.charspan);
  }

  lemma ProvenanceEmpty()
    ensures DecodeProvenance(map[]) == Some(Provenance(1, BoundingBox(0.0, 0.0, 0.0, 0.0, "TOPLEFT"), [0, 0]))
  {
    IntListRoundTrip([0, 0]);
  }

  lemma ProvListRoundTrip(ps: seq<Provenance>)
    ensures IterDicts(EncodeEach(ps, EncodeProvenance), DecodeProvenance) == Some(ps)
  {
    forall p ensures DecodeProvenance(EncodeProvenance(p)) == Some(p) {
      ProvenanceRoundTrip(p);
    }
    EachRoundTrip(ps, EncodeProvenance, DecodeProvenance);
  }

  function EncodeOrigin(o: Option<DocumentOrigin>): Json {
    match o
    case None => Null
    case Some(x) => Obj(map["mimetype" := Str(x.mimetype), "binary_hash" := Int(x.binaryHash), "filename" := Str(x.filename)])
  }

  /** The origin is read only when the stored value is truthy; it must then be
      a dictionary, whose missing keys default to "", 0 and "". */
  function DecodeOrigin(d: Dict): Option<Option<DocumentOrigin>> {
    var j := GetOrNull(d, "origin");
    if !Truthy(j) then Some(None)
    else if !j.Obj? then None
    else
      var mimetype :- GetStr(j.o, "mimetype", "");
      var binaryHash :- GetInt(j.o, "binary_hash", 0);
      var filename :- GetStr(j.o, "filename", "");
      Some(Some(DocumentOrigin(mimetype, binaryHash, filename)))
  }

  lemma OriginRoundTrip(d: Dict, o: Option<DocumentOrigin>)
    requires "origin" in d && d["origin"] == EncodeOrigin(o)
    ensures DecodeOrigin(d) == Some(o)
  {
    if o.Some? {
      var m := d["origin"].o;
      assert "mimetype" in m;
      assert |m| > 0;
    }
  }

  // ---------------------------------------------------------------------
  // Text elements
  // ---------------------------------------------------------------------

  /** The dictionary stored under "text". */
  function TextFields(t: DocumentText): Dict {
    map[
      "text_id" := Str(t.textId),
      "document_id" := Str(t.documentId),
      "text" := Str(t.text),
      "label" := Str(t.itemLabel),
      "level" := OptInt(t.level),
      "orig" := OptStr(t.orig),
      "parent_ref" := OptStr(t.parentRef),
      "children_refs" := StrList(t.childrenRefs),
      "prov" := EncodeEach(t.prov, EncodeProvenance)]
  }

  function EncodeText(t: DocumentText): Dict {
    map["text" := Obj(TextFields(t))]
  }

  /** DocumentText.from_elastic_hit */
  function DecodeText(hit: Dict): Option<DocumentText> {
    var t :- GetDict(hit, "text");
    var prov :- IterDicts(Get(t, "prov", Arr([])), DecodeProvenance);
    var textId :- GetStr(t, "text_id", "");
    var documentId :- GetStr(t, "document_id", "");
    var text :- GetStr(t, "text", "");
    var itemLabel :- GetStr(t, "label", "text");
    var level :- GetOptInt(t, "level");
    var orig :- GetOptStr(t, "orig");
    var parentRef :- GetOptStr(t, "parent_ref");
    var childrenRefs :- GetStrList(t, "children_refs");
    Some(DocumentText(textId, documentId, text, itemLabel, level, prov, orig, parentRef, childrenRefs))
  }

  lemma TextScalarsRead(t: DocumentText)
    ensures var d := TextFields(t);
      GetStr(d, "text_id", "") == Some(t.textId) && GetStr(d, "document_id", "") == Some(t.documentId)
      && GetStr(d, "text", "") == Some(t.text) && GetStr(d, "label", "text") == Some(t.itemLabel)
  {
  }

  lemma TextOptionalsRead(t: DocumentText)
    ensures var d := TextFields(t);
      GetOptInt(d, "level") == Some(t.level) && GetOptStr(d, "orig") == Some(t.orig)
      && GetOptStr(d, "parent_ref") == Some(t.parentRef)
  {
  }

  lemma TextListsRead(t: DocumentText)
    ensures var d := TextFields(t);
      IterDicts(Get(d, "prov", Arr([])), DecodeProvenance) == Some(t.prov)
      && GetStrList(d, "children_refs") == Some(t.childrenRefs)
  {
    var d := TextFields(t);
    ProvListRoundTrip(t.prov);
    assert d["prov"] == EncodeEach(t.prov, EncodeProvenance);
    StrListRoundTrip(t.childrenRefs);
    assert d["children_refs"] == StrList(t.childrenRefs);
  }

  /** Reading back what was written gives the same text element. */
  lemma TextRoundTrip(t: DocumentText)
    ensures DecodeText(EncodeText(t)) == Some(t)
  {
    assert GetDict(EncodeText(t), "text") == Some(TextFields(t));
    TextScalarsRead(t);
    TextOptionalsRead(t);
    TextListsRead(t);
  }

  /** An empty hit decodes to empty ids and text, label "text", and nothing else. */
  lemma TextEmptyHit()
    ensures DecodeText(map[]) == Some(DocumentText("", "", "", "text", None, [], None, None, []))
  {
  }

  // ---------------------------------------------------------------------
  // Pictures
  // ---------------------------------------------------------------------

  function EncodeImage(img: ImageData): Dict {
    map["mimetype" := Str(img.mimetype), "dpi" := Int(img.dpi), "size" := IntMap(img.size), "uri" := Str(img.uri)]
  }

  /** str(v) for the kinds of value a stored URI can hold. */
  function PyStrOf(j: Json): Option<string> {
    match j
    case Str(s) => Some(s)
    case Int(i) => Some(IntToString(i))
    case Bool(b) => Some(if b then "True" else "False")
    case _ => None
  }

  /** ImageData.from_elastic_data: defaults "image/png", 72 dpi, a zero size;
      the URI is str() of the stored value, or "" when it is null. */
  function DecodeImage(d: Dict): Option<ImageData> {
    var uriValue := Get(d, "uri", Str(""));
    var uri :- if uriValue.Null? then Some("") else PyStrOf(uriValue);
    var mimetype :- GetStr(d, "mimetype", "image/png");
    var dpi :- GetInt(d, "dpi", 72);
    var size :- AsIntMap(Get(d, "size", Obj(map["width" := Int(0), "height" := Int(0)])));
    Some(ImageData(mimetype, dpi, size, uri))
  }

  lemma ImageRoundTrip(img: ImageData)
    ensures DecodeImage(EncodeImage(img)) == Some(img)
  {
    IntMapRoundTrip(img.size);
  }

  function EncodeOptImage(img: Option<ImageData>): Json {
    match img
    case None => Null
    case Some(i) => Obj(EncodeImage(i))
  }

  /** The image is read only when the stored value is truthy; it must then be
      a dictionary. */
  function DecodeOptImage(j: Json): Option<Option<ImageData>> {
    if !Truthy(j) then Some(None)
    else if !j.Obj? then None
    else
      var img :- DecodeImage(j.o);
      Some(Some(img))
  }

  lemma OptImageRoundTrip(img: Option<ImageData>)
    ensures DecodeOptImage(EncodeOptImage(img)) == Some(img)
  {
    if img.Some? {
      var m := EncodeImage(img.value);
      assert "uri" in m;
      assert |m| > 0;
      ImageRoundTrip(img.value);
    }
  }

  /** The dictionary stored under "picture". */
  function PictureFields(p: DocumentPicture): Dict {
    map[
      "picture_id" := Str(p.pictureId),
      "document_id" := Str(p.documentId),
      "label" := Str(p.itemLabel),
      "captions" := StrList(p.captions),
      "references" := StrList(p.references),
      "footnotes" := StrList(p.footnotes),
      "parent_ref" := OptStr(p.parentRef),
      "children_refs" := StrList(p.childrenRefs),
      "prov" := EncodeEach(p.prov, EncodeProvenance),
      "image" := EncodeOptImage(p.image),
      "annotations" := ObjList(p.annotations)]
  }

  function EncodePicture(p: DocumentPicture): Dict {
    map["picture" := Obj(PictureFields(p))]
  }

  /** DocumentPicture.from_elastic_hit */
  function DecodePicture(hit: Dict): Option<DocumentPicture> {
    var p :- GetDict(hit, "picture");
    var prov :- IterDicts(Get(p, "prov", Arr([])), DecodeProvenance);
    var image :- DecodeOptImage(GetOrNull(p, "image"));
    var pictureId :- GetStr(p, "picture_id", "");
    var documentId :- GetStr(p, "document_id", "");
    var itemLabel :- GetStr(p, "label", "picture");
    var captions :- GetStrList(p, "captions");
    var references :- GetStrList(p, "references");
    var footnotes :- GetStrList(p, "footnotes");
    var annotations :- GetObjList(p, "annotations");
    var parentRef :- GetOptStr(p, "parent_ref");
    var childrenRefs :- GetStrList(p, "children_refs");
    Some(DocumentPicture(pictureId, documentId, itemLabel, prov, image, captions, references,
                         footnotes, annotations, parentRef, childrenRefs))
  }

  lemma PictureScalarsRead(p: DocumentPicture)
    ensures var d := PictureFields(p);
      GetStr(d, "picture_id", "") == Some(p.pictureId) && GetStr(d, "document_id", "") == Some(p.documentId)
      && GetStr(d, "label", "picture") == Some(p.itemLabel) && GetOptStr(d, "parent_ref") == Some(p.parentRef)
  {
  }

  lemma PictureListsRead(p: DocumentPicture)
    ensures var d := PictureFields(p);
      GetStrList(d, "captions") == Some(p.captions) && GetStrList(d, "references") == Some(p.references)
      && GetStrList(d, "footnotes") == Some(p.footnotes) && GetStrList(d, "children_refs") == Some(p.childrenRefs)
      && GetObjList(d, "annotations") == Some(p.annotations)
  {
    var d := PictureFields(p);
    StrListRoundTrip(p.captions);
    assert d["captions"] == StrList(p.captions);
    StrListRoundTrip(p.references);
    assert d["references"] == StrList(p.references);
    StrListRoundTrip(p.footnotes);
    assert d["footnotes"] == StrList(p.footnotes);
    StrListRoundTrip(p.childrenRefs);
    assert d["children_refs"] == StrList(p.childrenRefs);
    ObjListRoundTrip(p.annotations);
    assert d["annotations"] == ObjList(p.annotations);
  }

  lemma PictureNestedRead(p: DocumentPicture)
    ensures var d := PictureFields(p);
      IterDicts(Get(d, "prov", Arr([])), DecodeProvenance) == Some(p.prov)
      && DecodeOptImage(GetOrNull(d, "image")) == Some(p.image)
  {
    var d := PictureFields(p);
    ProvListRoundTrip(p.prov);
    assert d["prov"] == EncodeEach(p.prov, EncodeProvenance);
    OptImageRoundTrip(p.image);
    assert d["image"] == EncodeOptImage(p.image);
  }

  /** Reading back what was written gives the same picture, with or without an image. */
  lemma PictureRoundTrip(p: DocumentPicture)
    ensures DecodePicture(EncodePicture(p)) == Some(p)
  {
    var d := PictureFields(p);
    assert GetDict(EncodePicture(p), "picture") == Some(d);
    PictureScalarsRead(p);
    PictureListsRead(p);
    PictureNestedRead(p);
  }

  lemma PictureEmptyHit()
    ensures DecodePicture(map[]) == Some(DocumentPicture("", "", "picture", [], None, [], [], [], [], None, []))
  {
  }

  // ---------------------------------------------------------------------
  // Tables
  // ---------------------------------------------------------------------

  function EncodeCell(c: TableCell): Dict {
    map["bbox" := Obj(EncodeBoundingBox(c.bbox)),
        "row_span" := Int(c.rowSpan), "col_span" := Int(c.colSpan),
        "start_row_offset_idx" := Int(c.startRowOffsetIdx),
        "end_row_offset_idx" := Int(c.endRowOffsetIdx),
        "start_col_offset_idx" := Int(c.startColOffsetIdx),
        "end_col_offset_idx" := Int(c.endColOffsetIdx),
        "text" := Str(c.text),
        "column_header" := Bool(c.columnHeader), "row_header" := Bool(c.rowHeader),
        "row_section" := Bool(c.rowSection)]
  }

  /** TableCell.from_elastic_data: spans 1, start offsets 0, end offsets 1,
      empty text and false flags by default. */
  function DecodeCell(d: Dict): Option<TableCell> {
    var bboxData :- GetDict(d, "bbox");
    var bbox :- DecodeBoundingBox(bboxData);
    var rowSpan :- GetInt(d, "row_span", 1);
    var colSpan :- GetInt(d, "col_span", 1);
    var startRow :- GetInt(d, "start_row_offset_idx", 0);
    var endRow :- GetInt(d, "end_row_offset_idx", 1);
    var startCol :- GetInt(d, "start_col_offset_idx", 0);
    var endCol :- GetInt(d, "end_col_offset_idx", 1);
    var text :- GetStr(d, "text", "");
    var columnHeader :- GetBool(d, "column_header", false);
    var rowHeader :- GetBool(d, "row_header", false);
    var rowSection :- GetBool(d, "row_section", false);
    Some(TableCell(bbox, rowSpan, colSpan, startRow, endRow, startCol, endCol, text,
                   columnHeader, rowHeader, rowSection))
  }

  lemma CellSpansRead(c: TableCell)
    ensures var d := EncodeCell(c);
      GetInt(d, "row_span", 1) == Some(c.rowSpan) && GetInt(d, "col_span", 1) == Some(c.colSpan)
      && GetInt(d, "start_row_offset_idx", 0) == Some(c.startRowOffsetIdx)
      && GetInt(d, "end_row_offset_idx", 1) == Some(c.endRowOffsetIdx)
      && GetInt(d, "start_col_offset_idx", 0) == Some(c.startColOffsetIdx)
      && GetInt(d, "end_col_offset_idx", 1) == Some(c.endColOffsetIdx)
  {
  }

  lemma CellRestRead(c: TableCell)
    ensures var d := EncodeCell(c);
      GetDict(d, "bbox") == Some(EncodeBoundingBox(c.bbox)) && GetStr(d, "text", "") == Some(c.text)
      && GetBool(d, "column_header", false) == Some(c.columnHeader)
      && GetBool(d, "row_header", false) == Some(c.rowHeader)
      && GetBool(d, "row_section", false) == Some(c.rowSection)
  {
  }

  lemma CellRoundTrip(c: TableCell)
    ensures DecodeCell(EncodeCell(c)) == Some(c)
  {
    BoundingBoxRoundTrip(c.bbox);
    CellSpansRead(c);
    CellRestRead(c);
  }

  function EncodeGrid(g: seq<seq<Dict>>): (r: Json)
    ensures r.Arr? && |r.a| == |g|
  {
    Arr(seq(|g|, i requires 0 <= i < |g| => ObjList(g[i])))
  }

  function AsGrid(j: Json): Option<seq<seq<Dict>>> {
    if j.Arr? && forall k :: 0 <= k < |j.a| ==> AsObjList(j.a[k]).Some? then
      Some(seq(|j.a|, k requires 0 <= k < |j.a| && AsObjList(j.a[k]).Some? => AsObjList(j.a[k]).value))
    else None
  }

  lemma GridRoundTrip(g: seq<seq<Dict>>)
    ensures AsGrid(EncodeGrid(g)) == Some(g)
  {
    var j := EncodeGrid(g);
    forall k | 0 <= k < |g|
      ensures AsObjList(j.a[k]) == Some(g[k])
    {
      ObjListRoundTrip(g[k]);
    }
    var back := seq(|j.a|, k requires 0 <= k < |j.a| && AsObjList(j.a[k]).Some? => AsObjList(j.a[k]).value);
    assert back == g;
  }

  function EncodeTableData(t: TableData): Dict {
    map["table_cells" := EncodeEach(t.tableCells, EncodeCell), "num_rows" := Int(t.numRows),
        "num_cols" := Int(t.numCols), "grid" := EncodeGrid(t.grid)]
  }

  /** TableData.from_elastic_data: no cells, 0 rows, 0 columns, an empty grid by default. */
  function DecodeTableData(d: Dict): Option<TableData> {
    var cells :- IterDicts(Get(d, "table_cells", Arr([])), DecodeCell);
    var numRows :- GetInt(d, "num_rows", 0);
    var numCols :- GetInt(d, "num_cols", 0);
    var grid :- AsGrid(Get(d, "grid", Arr([])));
    Some(TableData(cells, numRows, numCols, grid))
  }

  lemma TableDataRoundTrip(t: TableData)
    ensures DecodeTableData(EncodeTableData(t)) == Some(t)
  {
    forall c ensures DecodeCell(EncodeCell(c)) == Some(c) {
      CellRoundTrip(c);
    }
    EachRoundTrip(t.tableCells, EncodeCell, DecodeCell);
    GridRoundTrip(t.grid);
  }

  function EncodeOptTableData(t: Option<TableData>): Json {
    match t
    case None => Null
    case Some(x) => Obj(EncodeTableData(x))
  }

  function DecodeOptTableData(j: Json): Option<Option<TableData>> {
    if !Truthy(j) then Some(None)
    else if !j.Obj? then None
    else
      var t :- DecodeTableData(j.o);
      Some(Some(t))
  }

  lemma OptTableDataRoundTrip(t: Option<TableData>)
    ensures DecodeOptTableData(EncodeOptTableData(t)) == Some(t)
  {
    if t.Some? {
      var m := EncodeTableData(t.value);
      assert "grid" in m;
      assert |m| > 0;
      TableDataRoundTrip(t.value);
    }
  }

  /** The dictionary stored under "table". */
  function TableFields(t: DocumentTable): Dict {
    map[
      "table_id" := Str(t.tableId),
      "document_id" := Str(t.documentId),
      "label" := Str(t.itemLabel),
      "captions" := StrList(t.captions),
      "references" := StrList(t.references),
      "footnotes" := StrList(t.footnotes),
      "parent_ref" := OptStr(t.parentRef),
      "children_refs" := StrList(t.childrenRefs),
      "prov" := EncodeEach(t.prov, EncodeProvenance),
      "data" := EncodeOptTableData(t.data),
      "annotations" := ObjList(t.annotations)]
  }

  function EncodeTable(t: DocumentTable): Dict {
    map["table" := Obj(TableFields(t))]
  }

  /** DocumentTable.from_elastic_hit */
  function DecodeTable(hit: Dict): Option<DocumentTable> {
    var t :- GetDict(hit, "table");
    var prov :- IterDicts(Get(t, "prov", Arr([])), DecodeProvenance);
    var data :- DecodeOptTableData(GetOrNull(t, "data"));
    var tableId :- GetStr(t, "table_id", "");
    var documentId :- GetStr(t, "document_id", "");
    var itemLabel :- GetStr(t, "label", "table");
    var captions :- GetStrList(t, "captions");
    var references :- GetStrList(t, "references");
    var footnotes :- GetStrList(t, "footnotes");
    var annotations :- GetObjList(t, "annotations");
    var parentRef :- GetOptStr(t, "parent_ref");
    var childrenRefs :- GetStrList(t, "children_refs");
    Some(DocumentTable(tableId, documentId, itemLabel, prov, data, captions, references,
                       footnotes, annotations, parentRef, childrenRefs))
  }

  lemma TableScalarsRead(t: DocumentTable)
    ensures var d := TableFields(t);
      GetStr(d, "table_id", "") == Some(t.tableId) && GetStr(d, "document_id", "") == Some(t.documentId)
      && GetStr(d, "label", "table") == Some(t.itemLabel) && GetOptStr(d, "parent_ref") == Some(t.parentRef)
  {
  }

  lemma TableListsRead(t: DocumentTable)
    ensures var d := TableFields(t);
      GetStrList(d, "captions") == Some(t.captions) && GetStrList(d, "references") == Some(t.references)
      && GetStrList(d, "footnotes") == Some(t.footnotes) && GetStrList(d, "children_refs") == Some(t.childrenRefs)
      && GetObjList(d, "annotations") == Some(t.annotations)
  {
    var d := TableFields(t);
    StrListRoundTrip(t.captions);
    assert d["captions"] == StrList(t.captions);
    StrListRoundTrip(t.references);
    assert d["references"] == StrList(t.references);
    StrListRoundTrip(t.footnotes);
    assert d["footnotes"] == StrList(t.footnotes);
    StrListRoundTrip(t.childrenRefs);
    assert d["children_refs"] == StrList(t.childrenRefs);
    ObjListRoundTrip(t.annotations);
    assert d["annotations"] == ObjList(t.annotations);
  }

  lemma TableNestedRead(t: DocumentTable)
    ensures var d := TableFields(t);
      IterDicts(Get(d, "prov", Arr([])), DecodeProvenance) == Some(t.prov)
      && DecodeOptTableData(GetOrNull(d, "data")) == Some(t.data)
  {
    var d := TableFields(t);
    ProvListRoundTrip(t.prov);
    assert d["prov"] == EncodeEach(t.prov, EncodeProvenance);
    OptTableDataRoundTrip(t.data);
    assert d["data"] == EncodeOptTableData(t.data);
  }

  /** Reading back what was written gives the same table, with or without cell data. */
  lemma TableRoundTrip(t: DocumentTable)
    ensures DecodeTable(EncodeTable(t)) == Some(t)
  {
    assert GetDict(EncodeTable(t), "table") == Some(TableFields(t));
    TableScalarsRead(t);
    TableListsRead(t);
    TableNestedRead(t);
  }

  lemma TableEmptyHit()
    ensures DecodeTable(map[]) == Some(DocumentTable("", "", "table", [], None, [], [], [], [], None, []))
  {
  }

  // ---------------------------------------------------------------------
  // Document metadata
  // ---------------------------------------------------------------------

  /** The dictionary stored under "document". */
  function DocumentFields(doc: DoclingDocument): Dict {
    map[
      "schema_name" := Str(doc.schemaName),
      "version" := Str(doc.version),
      "name" := Str(doc.name),
      "origin" := EncodeOrigin(doc.origin),
      "furniture" := Obj(doc.furniture),
      "body" := Obj(doc.body),
      "groups" := ObjList(doc.groups),
      "key_value_items" := ObjList(doc.keyValueItems),
      "form_items" := ObjList(doc.formItems),
      "pages" := Obj(doc.pages)]
  }

  function EncodeDocument(doc: DoclingDocument): Dict {
    map["document" := Obj(DocumentFields(doc))]
  }

  /** DoclingDocument.from_elastic_hit */
  function DecodeDocument(hit: Dict): Option<DoclingDocument> {
    var d :- GetDict(hit, "document");
    var origin :- DecodeOrigin(d);
    var schemaName :- GetStr(d, "schema_name", "");
    var version :- GetStr(d, "version", "");
    var name :- GetStr(d, "name", "");
    var furniture :- GetDict(d, "furniture");
    var body :- GetDict(d, "body");
    var groups :- GetObjList(d, "groups");
    var keyValueItems :- GetObjList(d, "key_value_items");
    var formItems :- GetObjList(d, "form_items");
    var pages :- GetDict(d, "pages");
    Some(DoclingDocument(schemaName, version, name, origin, furniture, body, groups,
                         keyValueItems, formItems, pages))
  }

  lemma DocumentScalarsRead(doc: DoclingDocument)
    ensures var d := DocumentFields(doc);
      DecodeOrigin(d) == Some(doc.origin)
      && GetStr(d, "schema_name", "") == Some(doc.schemaName) && GetStr(d, "version", "") == Some(doc.version)
      && GetStr(d, "name", "") == Some(doc.name)
  {
    OriginRoundTrip(DocumentFields(doc), doc.origin);
  }

  lemma DocumentDictsRead(doc: DoclingDocument)
    ensures var d := DocumentFields(doc);
      GetDict(d, "furniture") == Some(doc.furniture) && GetDict(d, "body") == Some(doc.body)
      && GetDict(d, "pages") == Some(doc.pages)
  {
  }

  lemma DocumentListsRead(doc: DoclingDocument)
    ensures var d := DocumentFields(doc);
      GetObjList(d, "groups") == Some(doc.groups) && GetObjList(d, "key_value_items") == Some(doc.keyValueItems)
      && GetObjList(d, "form_items") == Some(doc.formItems)
  {
    var d := DocumentFields(doc);
    ObjListRoundTrip(doc.groups);
    assert d["groups"] == ObjList(doc.groups);
    ObjListRoundTrip(doc.keyValueItems);
    assert d["key_value_items"] == ObjList(doc.keyValueItems);
    ObjListRoundTrip(doc.formItems);
    assert d["form_items"] == ObjList(doc.formItems);
  }

  /** Reading back what was written gives the same document, with or without an origin. */
  lemma DocumentRoundTrip(doc: DoclingDocument)
    ensures DecodeDocument(EncodeDocument(doc)) == Some(doc)
  {
    assert GetDict(EncodeDocument(doc), "document") == Some(DocumentFields(doc));
    DocumentScalarsRead(doc);
    DocumentDictsRead(doc);
    DocumentListsRead(doc);
  }

  // ---------------------------------------------------------------------
  // Chunks
  // ---------------------------------------------------------------------

  function EncodeHeadings(h: Option<seq<string>>): Json {
    match h
    case None => Null
    case Some(xs) => StrList(xs)
  }

  function EncodeMeta(m: DocMeta): Dict {
    map["schema_name" := Str(m.schemaName), "version" := Str(m.version),
        "doc_items" := ObjList(m.docItems), "headings" := EncodeHeadings(m.headings),
        "origin" := EncodeOrigin(m.origin)]
  }

  /** DocChunk.to_elastic_data: the vector is written only when it is a
      non-empty list. */
  function EncodeChunk(c: DocChunk): (r: Dict)
    ensures "chunk" in r && r["chunk"].Obj?
    ensures "vector" in r["chunk"].o <==> c.vector.Some? && |c.vector.value| > 0
  {
    var data := map["chunk_id" := OptStr(c.chunkId), "text" := Str(c.text),
                     "document_id" := Str(c.documentId), "meta" := Obj(EncodeMeta(c.meta))];
    map["chunk" := Obj(if c.vector.Some? && |c.vector.value| > 0 then data["vector" := RealList(c.vector.value)] else data)]
  }

  function DecodeMeta(m: Dict): Option<DocMeta> {
    var origin :- DecodeOrigin(m);
    var schemaName :- GetStr(m, "schema_name", "");
    var version :- GetStr(m, "version", "");
    var docItems :- GetObjList(m, "doc_items");
    var headingsJson := GetOrNull(m, "headings");
    var headings :- if headingsJson.Null? then Some(None)
                    else (var hs :- AsStrList(headingsJson); Some(Some(hs)));
    Some(DocMeta(schemaName, version, docItems, headings, origin))
  }

  lemma MetaRoundTrip(m: DocMeta)
    ensures DecodeMeta(EncodeMeta(m)) == Some(m)
  {
    OriginRoundTrip(EncodeMeta(m), m.origin);
    ObjListRoundTrip(m.docItems);
    if m.headings.Some? {
      StrListRoundTrip(m.headings.value);
    }
  }

  /** DocChunk.from_elastic_hit: a missing chunk id reads as "", a null one as None. */
  function DecodeChunk(hit: Dict): Option<DocChunk> {
    var c :- GetDict(hit, "chunk");
    var metaData :- GetDict(c, "meta");
    var meta :- DecodeMeta(metaData);
    var chunkIdJson := Get(c, "chunk_id", Str(""));
    var chunkId :- if chunkIdJson.Null? then Some(None) else (var s :- AsStr(chunkIdJson); Some(Some(s)));
    var text :- GetStr(c, "text", "");
    var documentId :- GetStr(c, "document_id", "");
    var vectorJson := GetOrNull(c, "vector");
    var vector :- if vectorJson.Null? then Some(None) else (var v :- AsRealList(vectorJson); Some(Some(v)));
    Some(DocChunk(chunkId, text, meta, documentId, vector))
  }

  /** The chunk as it comes back from the index: an empty vector is not
      written, so it returns as None. */
  function AsStored(c: DocChunk): DocChunk {
    if c.vector == Some([]) then c.(vector := None) else c
  }

  lemma ChunkFieldsRead(c: DocChunk)
    ensures var d := EncodeChunk(c)["chunk"].o;
      GetDict(d, "meta") == Some(EncodeMeta(c.meta)) && Get(d, "chunk_id", Str("")) == OptStr(c.chunkId)
      && GetStr(d, "text", "") == Some(c.text) && GetStr(d, "document_id", "") == Some(c.documentId)
  {
  }

  lemma ChunkVectorRead(c: DocChunk)
    ensures var d := EncodeChunk(c)["chunk"].o;
      GetOrNull(d, "vector") == (if c.vector.Some? && |c.vector.value| > 0 then RealList(c.vector.value) else Null)
  {
  }

  /** Reading back what was written gives the same chunk, except that an empty
      vector comes back as None. */
  lemma ChunkRoundTrip(c: DocChunk)
    ensures DecodeChunk(EncodeChunk(c)) == Some(AsStored(c))
  {
    var hit := EncodeChunk(c);
    var d := hit["chunk"].o;
    assert GetDict(hit, "chunk") == Some(d);
    MetaRoundTrip(c.meta);
    ChunkFieldsRead(c);
    ChunkVectorRead(c);
    if c.vector.Some? && |c.vector.value| > 0 {
      RealListRoundTrip(c.vector.value);
    }
  }

  /** An empty hit gives a chunk with id "", empty text and document, no vector. */
  lemma ChunkEmptyHit()
    ensures DecodeChunk(map[]) == Some(DocChunk(Some(""), "", DocMeta("", "", [], None, None), "", None))
  {
  }

  // ---------------------------------------------------------------------
  // Chunks made by the document converter
  // ---------------------------------------------------------------------

  /** The view of a converter chunk that the entity is built from; the
      converter's document items are given already dumped to dictionaries. */
  datatype ConverterMeta = ConverterMeta(
    schemaName: string, version: string, docItems: seq<Dict>,
    headings: Option<seq<string>>, origin: Option<DocumentOrigin>)

  datatype ConverterChunk = ConverterChunk(text: string, meta: ConverterMeta)

  /** The id given to the `index`-th chunk of a document. */
  function ChunkIdFor(documentId: string, index: int): string {
    documentId + "_chunk_" + IntToString(index)
  }

  /** DocChunk.from_docling_chunk */
  function FromConverterChunk(dl: ConverterChunk, documentId: string, chunkIndex: int, vector: Option<seq<real>>): (c: DocChunk)
    ensures c.chunkId == Some(documentId + "_chunk_" + IntToString(chunkIndex))
    ensures c.text == dl.text && c.documentId == documentId && c.vector == vector
    ensures c.meta.headings == dl.meta.headings && c.meta.docItems == dl.meta.docItems
  {
    DocChunk(Some(ChunkIdFor(documentId, chunkIndex)), dl.text,
             DocMeta(dl.meta.schemaName, dl.meta.version, dl.meta.docItems, dl.meta.headings, dl.meta.origin),
             documentId, vector)
  }

  /** Two chunks of the same document with different non-negative indices get
      different ids. */
  lemma ChunkIdsDistinct(documentId: string, i: nat, j: nat)
    requires i != j
    ensures ChunkIdFor(documentId, i) != ChunkIdFor(documentId, j)
  {
    var p := documentId + "_chunk_";
    if ChunkIdFor(documentId, i) == ChunkIdFor(documentId, j) {
      assert ChunkIdFor(documentId, i)[|p|..] == NatToString(i);
      assert ChunkIdFor(documentId, j)[|p|..] == NatToString(j);
      NatToStringInjective(i, j);
    }
  }
}
