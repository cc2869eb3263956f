/** Conversion of a converted (Docling) document into the index's entities:
    one header record, and the text, picture and table elements numbered by
    their position. Each element arrives as the dictionary dump of the
    converter's item. Where the Python code raises, the model returns None.
    It also returns None where a list is expected and a non-empty string or
    a dictionary arrives (`Iter`), which Python would iterate. */
module DoclingImport {
  import opened Wrappers
  import opened Strings
  import opened Json
  import opened Documents

  /** The parts of the converter's document the conversion reads. A header
      part that is falsy in the converter is None here. */
  datatype ConverterDocument = ConverterDocument(
    schemaName: string, version: string, name: string,
    origin: Option<DocumentOrigin>, furniture: Option<Dict>, body: Option<Dict>,
    groups: seq<Dict>, keyValueItems: seq<Dict>, formItems: seq<Dict>,
    pages: map<nat, Dict>,
    texts: seq<Dict>, pictures: seq<Dict>, tables: seq<Dict>)

  datatype Entities = Entities(
    document: DoclingDocument, texts: seq<DocumentText>,
    pictures: seq<DocumentPicture>, tables: seq<DocumentTable>)

  // ---------------------------------------------------------------------
  // Python operators on dumped values
  // ---------------------------------------------------------------------

  /** Python's `key in j`: key membership for a dictionary, substring for a
      string, element membership for a list; a TypeError otherwise. */
  function InOp(key: string, j: Json): Option<bool> {
    match j
    case Obj(o) => Some(key in o)
    case Str(s) => Some(Contains(s, key))
    case Arr(a) => Some(Str(key) in a)
    case _ => None
  }

  /** The elements a `for` loop visits: a list's elements; nothing for an
      empty string or dictionary. */
  function Iter(j: Json): Option<seq<Json>> {
    match j
    case Arr(a) => Some(a)
    case Str(s) => if |s| == 0 then Some([]) else None
    case Obj(o) => if |o| == 0 then Some([]) else None
    case _ => None
  }

  // ---------------------------------------------------------------------
  // Provenance and bounding boxes
  // ---------------------------------------------------------------------

  /** The converter's bounding box: the one-letter names only, 0 when missing. */
  function ConverterBox(d: Dict): Option<BoundingBox> {
    var left :- AsReal(Get(d, "l", Int(0)));
    var top :- AsReal(Get(d, "t", Int(0)));
    var right :- AsReal(Get(d, "r", Int(0)));
    var bottom :- AsReal(Get(d, "b", Int(0)));
    var coordOrigin :- GetStr(d, "coord_origin", "TOPLEFT");
    Some(BoundingBox(left, top, right, bottom, coordOrigin))
  }

  /** One provenance entry that has a "bbox" key. */
  function ProvOf(d: Dict): Option<Provenance>
    requires "bbox" in d
  {
    var box := d["bbox"];
    if !box.Obj? then None
    else
      var bbox :- ConverterBox(box.o);
      var pageNo :- GetInt(d, "page_no", 1);
      var charspan :- AsIntList(Get(d, "charspan", IntList([0, 0])));
      Some(Provenance(pageNo, bbox, charspan))
  }

  /** The provenance list built from the entries: entries without "bbox" are
      skipped, the others converted in order. */
  function KeptProvs(es: seq<Json>): Option<seq<Provenance>>
    decreases |es|
  {
    if |es| == 0 then Some([])
    else
      var init :- KeptProvs(es[..|es| - 1]);
      var e := es[|es| - 1];
      var has :- InOp("bbox", e);
      if !has then Some(init)
      else if !e.Obj? then None
      else
        var p :- ProvOf(e.o);
        Some(init + [p])
  }

  /** The provenance loop of one element (done only when the element has "prov"). */
  method ConvertProvenance(item: Dict) returns (r: Option<seq<Provenance>>)
    ensures "prov" !in item ==> r == Some([])
    ensures "prov" in item ==> r == (var es :- Iter(item["prov"]); KeptProvs(es))
    ensures r == ProvsOf(item)
  {
    if "prov" !in item {
      return Some([]);
    }
    var it := Iter(item["prov"]);
    if it.None? {
      return None;
    }
    var es := it.value;
    var provList: seq<Provenance> := [];
    var i := 0;
    while i < |es|
      invariant 0 <= i <= |es|
      invariant KeptProvs(es[..i]) == Some(provList)
    {
      assert es[..i + 1][..i] == es[..i];
      var e := es[i];
      var has := InOp("bbox", e);
      if has.None? {
        NoProvsAfterFailure(es, i + 1, |es|);
        assert es[..|es|] == es;
        return None;
      }
      if has.value {
        if !e.Obj? {
          NoProvsAfterFailure(es, i + 1, |es|);
          assert es[..|es|] == es;
          return None;
        }
        var p := ProvOf(e.o);
        if p.None? {
          NoProvsAfterFailure(es, i + 1, |es|);
          assert es[..|es|] == es;
          return None;
        }
        provList := provList + [p.value];
      }
      i := i + 1;
    }
    assert es[..|es|] == es;
    r := Some(provList);
  }

  /** Entries are converted independently: the list for a concatenation is
      the concatenation of the lists, so order is kept. */
  lemma {:induction false} KeptProvsAppend(a: seq<Json>, b: seq<Json>)
    requires KeptProvs(a).Some? && KeptProvs(b).Some?
    ensures KeptProvs(a + b) == Some(KeptProvs(a).value + KeptProvs(b).value)
    decreases |b|
  {
    if |b| == 0 {
      assert a + b == a;
      assert KeptProvs(b) == Some([]);
      assert KeptProvs(a).value + [] == KeptProvs(a).value;
    } else {
      var b' := b[..|b| - 1];
      var e := b[|b| - 1];
      assert (a + b)[..|a + b| - 1] == a + b';
      assert (a + b)[|a + b| - 1] == e;
      assert KeptProvs(b').Some?;
      KeptProvsAppend(a, b');
      var has := InOp("bbox", e);
      assert has.Some?;
      if has.value {
        assert e.Obj?;
        var p := ProvOf(e.o);
        assert p.Some?;
        assert KeptProvs(b) == Some(KeptProvs(b').value + [p.value]);
        assert KeptProvs(a + b) == Some(KeptProvs(a + b').value + [p.value]);
        assert KeptProvs(a).value + KeptProvs(b').value + [p.value]
            == KeptProvs(a).value + (KeptProvs(b').value + [p.value]);
      } else {
        assert KeptProvs(b) == KeptProvs(b');
        assert KeptProvs(a + b) == KeptProvs(a + b');
      }
    }
  }

  /** How many entries have a "bbox" key. */
  function CountBoxed(es: seq<Json>): nat
    decreases |es|
  {
    if |es| == 0 then 0
    else CountBoxed(es[..|es| - 1]) + (if es[|es| - 1].Obj? && "bbox" in es[|es| - 1].o then 1 else 0)
  }

  /** For a list of dictionaries, one provenance per entry that has a "bbox";
      the others are dropped. */
  lemma {:induction false} KeptProvsLength(es: seq<Json>)
    requires forall k :: 0 <= k < |es| ==> es[k].Obj?
    requires KeptProvs(es).Some?
    ensures |KeptProvs(es).value| == CountBoxed(es) <= |es|
    decreases |es|
  {
    if |es| > 0 {
      KeptProvsLength(es[..|es| - 1]);
    }
  }

  /** A single converter entry: the box is read from l/t/r/b, the page and
      character span take their defaults. */
  lemma ProvOfConverterEntry(l: real, t: real, r: real, b: real)
    ensures KeptProvs([Obj(map["bbox" := Obj(map["l" := Float(l), "t" := Float(t), "r" := Float(r), "b" := Float(b)])])])
            == Some([Provenance(1, BoundingBox(l, t, r, b, "TOPLEFT"), [0, 0])])
  {
    var box := map["l" := Float(l), "t" := Float(t), "r" := Float(r), "b" := Float(b)];
    var entry := map["bbox" := Obj(box)];
    var es := [Obj(entry)];
    assert es[..|es| - 1] == [];
    assert es[|es| - 1] == Obj(entry);
    assert InOp("bbox", Obj(entry)) == Some(true);
    assert ConverterBox(box) == Some(BoundingBox(l, t, r, b, "TOPLEFT"));
    assert GetInt(entry, "page_no", 1) == Some(1);
    assert Get(entry, "charspan", IntList([0, 0])) == IntList([0, 0]);
    IntListRoundTrip([0, 0]);
    var p := Provenance(1, BoundingBox(l, t, r, b, "TOPLEFT"), [0, 0]);
    assert ProvOf(entry) == Some(p);
    assert KeptProvs(es[..|es| - 1]) == Some([]);
    assert KeptProvs(es) == Some([] + [p]);
    assert [] + [p] == [p];
  }

  /** An entry without a bounding box is dropped. */
  lemma ProvWithoutBoxDropped(page: int)
    ensures KeptProvs([Obj(map["page_no" := Int(page)])]) == Some([])
  {
    var es := [Obj(map["page_no" := Int(page)])];
    assert es[..0] == [];
  }

  // ---------------------------------------------------------------------
  // References
  // ---------------------------------------------------------------------

  /** The parent reference: read from a truthy "parent" dictionary, None
      for a parent that is missing or falsy. */
  function ParentRef(d: Dict): Option<Option<string>> {
    var p := GetOrNull(d, "parent");
    if !Truthy(p) then Some(None)
    else if !p.Obj? then None
    else GetOptStr(p.o, "$ref")
  }

  function RefOf(d: Dict): Option<string> {
    GetStr(d, "$ref", "")
  }

  /** The references of a list-valued key (none when the key is missing):
      each entry's "$ref", or "" when it has none. */
  function RefsOf(d: Dict, key: string): Option<seq<string>> {
    var items :- Iter(Get(d, key, Arr([])));
    DecodeEach(items, RefOf)
  }

  /** A truthy parent dictionary gives its "$ref" (None when it has none); a
      missing, null or empty parent gives None. */
  lemma ParentRefCases(d: Dict)
    ensures ("parent" !in d || d["parent"] == Null || d["parent"] == Obj(map[])) ==> ParentRef(d) == Some(None)
    ensures "parent" in d && d["parent"].Obj? && "$ref" in d["parent"].o && d["parent"].o["$ref"].Str?
            ==> ParentRef(d) == Some(Some(d["parent"].o["$ref"].s))
  {
  }

  /** One reference per entry, in order, "" where the entry has no "$ref". */
  lemma RefsOfList(d: Dict, key: string)
    requires key in d && d[key].Arr?
    requires forall k :: 0 <= k < |d[key].a| ==>
      d[key].a[k].Obj? && ("$ref" in d[key].a[k].o ==> d[key].a[k].o["$ref"].Str?)
    ensures RefsOf(d, key).Some? && |RefsOf(d, key).value| == |d[key].a|
    ensures forall k :: 0 <= k < |d[key].a| ==>
      RefsOf(d, key).value[k] == (if "$ref" in d[key].a[k].o then d[key].a[k].o["$ref"].s else "")
  {
    var xs := d[key].a;
    assert forall k :: 0 <= k < |xs| ==> RefOf(xs[k].o).Some?;
    DecodeEachAll(xs, RefOf);
  }

  // ---------------------------------------------------------------------
  // Elements
  // ---------------------------------------------------------------------

  function ElementId(documentId: string, kind: string, i: nat): string {
    documentId + "_" + kind + "_" + NatToString(i)
  }

  /** The provenance list of an element, as ConvertProvenance computes it. */
  function ProvsOf(item: Dict): Option<seq<Provenance>> {
    if "prov" !in item then Some([]) else (var es :- Iter(item["prov"]); KeptProvs(es))
  }

  /** The i-th text element. */
  function TextOf(item: Dict, documentId: string, i: nat): (r: Option<DocumentText>)
    ensures r.Some? ==> r.value.textId == ElementId(documentId, "text", i) && r.value.documentId == documentId
  {
    var prov :- ProvsOf(item);
    TextWith(item, documentId, i, prov)
  }

  /** The i-th text element once its provenance list is built. */
  function TextWith(item: Dict, documentId: string, i: nat, prov: seq<Provenance>): (r: Option<DocumentText>)
    ensures r.Some? ==> r.value.prov == prov
  {
    var text :- GetStr(item, "text", "");
    var itemLabel :- GetStr(item, "label", "text");
    var level :- GetOptInt(item, "level");
    var orig :- GetOptStr(item, "orig");
    var parentRef :- ParentRef(item);
    var childrenRefs :- RefsOf(item, "children");
    Some(DocumentText(ElementId(documentId, "text", i), documentId, text, itemLabel, level, prov,
                      orig, parentRef, childrenRefs))
  }

  /** The image of a picture element, read when the key "image" is present
      (whatever its value). */
  function ImageOf(item: Dict): Option<Option<ImageData>> {
    if "image" !in item then Some(None)
    else
      var info := item["image"];
      if !info.Obj? then None
      else
        var mimetype :- GetStr(info.o, "mimetype", "image/png");
        var dpi :- GetInt(info.o, "dpi", 72);
        var size :- AsIntMap(Get(info.o, "size", Obj(map["width" := Int(0), "height" := Int(0)])));
        var uri :- GetStr(info.o, "uri", "");
        Some(Some(ImageData(mimetype, dpi, size, uri)))
  }

  /** The i-th picture element. */
  function PictureOf(item: Dict, documentId: string, i: nat): (r: Option<DocumentPicture>)
    ensures r.Some? ==> r.value.pictureId == ElementId(documentId, "picture", i) && r.value.documentId == documentId
  {
    var prov :- ProvsOf(item);
    PictureWith(item, documentId, i, prov)
  }

  function PictureWith(item: Dict, documentId: string, i: nat, prov: seq<Provenance>): (r: Option<DocumentPicture>)
    ensures r.Some? ==> r.value.prov == prov
  {
    var image :- ImageOf(item);
    var itemLabel :- GetStr(item, "label", "picture");
    var captions :- RefsOf(item, "captions");
    var references :- RefsOf(item, "references");
    var footnotes :- RefsOf(item, "footnotes");
    var annotations :- GetObjList(item, "annotations");
    var parentRef :- ParentRef(item);
    var childrenRefs :- RefsOf(item, "children");
    Some(DocumentPicture(ElementId(documentId, "picture", i), documentId, itemLabel, prov, image,
                         captions, references, footnotes, annotations, parentRef, childrenRefs))
  }

  /** A table cell that has a "bbox" key. */
  function CellOf(d: Dict): Option<TableCell>
    requires "bbox" in d
  {
    var box := d["bbox"];
    if !box.Obj? then None
    else
      var bbox :- ConverterBox(box.o);
      var rowSpan :- GetInt(d, "row_span", 1);
      var colSpan :- GetInt(d, "col_span", 1);
      var startRow :- GetInt(d, "start_row_offset_idx", 0);
      var endRow :- GetInt(d, "end_row_offset_idx", 1);
      var startCol :- GetInt(d, "start_col_offset_idx", 0);
      var endCol :- GetInt(d, "end_col_offset_idx", 1);
      var text :- GetStr(d, "text", "");
      var columnHeader :- GetBool(d, "column_header", false);
      var rowHeader :- GetBool(d, "row_header", false);
      var rowSection :- GetBool(d, "row_section", false);
      Some(TableCell(bbox, rowSpan, colSpan, startRow, endRow, startCol, endCol, text,
                     columnHeader, rowHeader, rowSection))
  }

  /** The cells built from the entries: entries without "bbox" are skipped. */
  function KeptCells(es: seq<Json>): Option<seq<TableCell>>
    decreases |es|
  {
    if |es| == 0 then Some([])
    else
      var init :- KeptCells(es[..|es| - 1]);
      var e := es[|es| - 1];
      var has :- InOp("bbox", e);
      if !has then Some(init)
      else if !e.Obj? then None
      else
        var c :- CellOf(e.o);
        Some(init + [c])
  }

  /** The entries with a "bbox" key, in order. */
  function BoxedEntries(es: seq<Json>): (r: seq<Dict>)
    ensures |r| == CountBoxed(es)
    ensures forall k :: 0 <= k < |r| ==> "bbox" in r[k]
    decreases |es|
  {
    if |es| == 0 then []
    else
      var e := es[|es| - 1];
      BoxedEntries(es[..|es| - 1]) + (if e.Obj? && "bbox" in e.o then [e.o] else [])
  }

  /** For a list of dictionaries, the cells are those of the entries that
      have a "bbox", one each and in order; the others are dropped. */
  lemma {:induction false} KeptCellsOfBoxed(es: seq<Json>)
    requires forall k :: 0 <= k < |es| ==> es[k].Obj?
    requires KeptCells(es).Some?
    ensures var cells := KeptCells(es).value; var boxed := BoxedEntries(es);
      |cells| == |boxed| == CountBoxed(es)
      && forall k :: 0 <= k < |cells| ==> CellOf(boxed[k]) == Some(cells[k])
    decreases |es|
  {
    if |es| > 0 {
      KeptCellsOfBoxed(es[..|es| - 1]);
    }
  }

  /** A cell entry without a bounding box is dropped. */
  lemma CellWithoutBoxDropped(text: string)
    ensures KeptCells([Obj(map["text" := Str(text)])]) == Some([])
  {
    var es := [Obj(map["text" := Str(text)])];
    assert es[..0] == [];
  }

  /** The table data of a table element, read when the key "data" is present. */
  function TableDataOf(item: Dict): Option<Option<TableData>> {
    if "data" !in item then Some(None)
    else
      var info := item["data"];
      if !info.Obj? then None
      else
        var entries :- Iter(Get(info.o, "table_cells", Arr([])));
        var cells :- KeptCells(entries);
        var numRows :- GetInt(info.o, "num_rows", 0);
        var numCols :- GetInt(info.o, "num_cols", 0);
        var grid :- AsGrid(Get(info.o, "grid", Arr([])));
        Some(Some(TableData(cells, numRows, numCols, grid)))
  }

  /** The i-th table element. */
  function TableOf(item: Dict, documentId: string, i: nat): (r: Option<DocumentTable>)
    ensures r.Some? ==> r.value.tableId == ElementId(documentId, "table", i) && r.value.documentId == documentId
  {
    var prov :- ProvsOf(item);
    TableWith(item, documentId, i, prov)
  }

  function TableWith(item: Dict, documentId: string, i: nat, prov: seq<Provenance>): (r: Option<DocumentTable>)
    ensures r.Some? ==> r.value.prov == prov
  {
    var data :- TableDataOf(item);
    var itemLabel :- GetStr(item, "label", "table");
    var captions :- RefsOf(item, "captions");
    var references :- RefsOf(item, "references");
    var footnotes :- RefsOf(item, "footnotes");
    var annotations :- GetObjList(item, "annotations");
    var parentRef :- ParentRef(item);
    var childrenRefs :- RefsOf(item, "children");
    Some(DocumentTable(ElementId(documentId, "table", i), documentId, itemLabel, prov, data,
                       captions, references, footnotes, annotations, parentRef, childrenRefs))
  }

  /** A picture whose dump has the key "image" with a null value makes the
      conversion fail: the key is checked for presence, not for a value. */
  lemma NullImageFails(documentId: string, i: nat)
    ensures PictureOf(map["image" := Null], documentId, i) == None
  {
  }

  /** Likewise a table whose "data" key holds null. */
  lemma NullTableDataFails(documentId: string, i: nat)
    ensures TableOf(map["data" := Null], documentId, i) == None
  {
  }

  // ---------------------------------------------------------------------
  // Element lists
  // ---------------------------------------------------------------------

  /** The first n text elements, or None if converting one of them raises. */
  function TextsUpTo(items: seq<Dict>, documentId: string, n: nat): Option<seq<DocumentText>>
    requires n <= |items|
  {
    if n == 0 then Some([])
    else
      var init :- TextsUpTo(items, documentId, n - 1);
      var t :- TextOf(items[n - 1], documentId, n - 1);
      Some(init + [t])
  }

  function PicturesUpTo(items: seq<Dict>, documentId: string, n: nat): Option<seq<DocumentPicture>>
    requires n <= |items|
  {
    if n == 0 then Some([])
    else
      var init :- PicturesUpTo(items, documentId, n - 1);
      var p :- PictureOf(items[n - 1], documentId, n - 1);
      Some(init + [p])
  }

  function TablesUpTo(items: seq<Dict>, documentId: string, n: nat): Option<seq<DocumentTable>>
    requires n <= |items|
  {
    if n == 0 then Some([])
    else
      var init :- TablesUpTo(items, documentId, n - 1);
      var t :- TableOf(items[n - 1], documentId, n - 1);
      Some(init + [t])
  }

  /** The k-th text element is built from the k-th item, is numbered k, and
      carries the document id; the list is as long as the input. */
  lemma {:induction false} TextsShape(items: seq<Dict>, documentId: string, n: nat)
    requires n <= |items| && TextsUpTo(items, documentId, n).Some?
    ensures |TextsUpTo(items, documentId, n).value| == n
    ensures forall k :: 0 <= k < n ==> TextOf(items[k], documentId, k) == Some(TextsUpTo(items, documentId, n).value[k])
    ensures forall k :: 0 <= k < n ==>
      TextsUpTo(items, documentId, n).value[k].textId == ElementId(documentId, "text", k)
      && TextsUpTo(items, documentId, n).value[k].documentId == documentId
  {
    if n > 0 {
      var init := TextsUpTo(items, documentId, n - 1);
      assert init.Some?;
      TextsShape(items, documentId, n - 1);
      var last := TextOf(items[n - 1], documentId, n - 1);
      assert TextsUpTo(items, documentId, n) == Some(init.value + [last.value]);
    }
  }

  lemma {:induction false} PicturesShape(items: seq<Dict>, documentId: string, n: nat)
    requires n <= |items| && PicturesUpTo(items, documentId, n).Some?
    ensures |PicturesUpTo(items, documentId, n).value| == n
    ensures forall k :: 0 <= k < n ==> PictureOf(items[k], documentId, k) == Some(PicturesUpTo(items, documentId, n).value[k])
    ensures forall k :: 0 <= k < n ==>
      PicturesUpTo(items, documentId, n).value[k].pictureId == ElementId(documentId, "picture", k)
      && PicturesUpTo(items, documentId, n).value[k].documentId == documentId
  {
    if n > 0 {
      var init := PicturesUpTo(items, documentId, n - 1);
      assert init.Some?;
      PicturesShape(items, documentId, n - 1);
      var last := PictureOf(items[n - 1], documentId, n - 1);
      assert PicturesUpTo(items, documentId, n) == Some(init.value + [last.value]);
    }
  }

  lemma {:induction false} TablesShape(items: seq<Dict>, documentId: string, n: nat)
    requires n <= |items| && TablesUpTo(items, documentId, n).Some?
    ensures |TablesUpTo(items, documentId, n).value| == n
    ensures forall k :: 0 <= k < n ==> TableOf(items[k], documentId, k) == Some(TablesUpTo(items, documentId, n).value[k])
    ensures forall k :: 0 <= k < n ==>
      TablesUpTo(items, documentId, n).value[k].tableId == ElementId(documentId, "table", k)
      && TablesUpTo(items, documentId, n).value[k].documentId == documentId
  {
    if n > 0 {
      var init := TablesUpTo(items, documentId, n - 1);
      assert init.Some?;
      TablesShape(items, documentId, n - 1);
      var last := TableOf(items[n - 1], documentId, n - 1);
      assert TablesUpTo(items, documentId, n) == Some(init.value + [last.value]);
    }
  }

  /** Elements at different positions get different ids. */
  lemma ElementIdsDistinct(documentId: string, kind: string, i: nat, j: nat)
    requires i != j
    ensures ElementId(documentId, kind, i) != ElementId(documentId, kind, j)
  {
    var p := documentId + "_" + kind + "_";
    if ElementId(documentId, kind, i) == ElementId(documentId, kind, j) {
      assert ElementId(documentId, kind, i)[|p|..] == NatToString(i);
      assert ElementId(documentId, kind, j)[|p|..] == NatToString(j);
      NatToStringInjective(i, j);
    }
  }

  // ---------------------------------------------------------------------
  // The conversion
  // ---------------------------------------------------------------------

  lemma NatToStringInjectiveAll()
    ensures forall a: nat, b: nat :: NatToString(a) == NatToString(b) ==> a == b
  {
    forall a: nat, b: nat | NatToString(a) == NatToString(b)
      ensures a == b
    {
      NatToStringInjective(a, b);
    }
  }

  /** The header record: page numbers become string keys. */
  function Header(dl: ConverterDocument): (doc: DoclingDocument)
    ensures forall k :: k in dl.pages ==> NatToString(k) in doc.pages && doc.pages[NatToString(k)] == Obj(dl.pages[k])
    ensures forall key :: key in doc.pages ==> exists k :: k in dl.pages && key == NatToString(k)
  {
    NatToStringInjectiveAll();
    DoclingDocument(
      dl.schemaName, dl.version, dl.name, dl.origin,
      dl.furniture.GetOr(map[]), dl.body.GetOr(map[]),
      dl.groups, dl.keyValueItems, dl.formItems,
      map k | k in dl.pages :: NatToString(k) := Obj(dl.pages[k]))
  }

  /** The text loop. */
  method ConvertTexts(items: seq<Dict>, documentId: string) returns (r: Option<seq<DocumentText>>)
    ensures r == TextsUpTo(items, documentId, |items|)
  {
    var texts: seq<DocumentText> := [];
    var i := 0;
    while i < |items|
      invariant 0 <= i <= |items|
      invariant TextsUpTo(items, documentId, i) == Some(texts)
    {
      var prov := ConvertProvenance(items[i]);
      if prov.None? {
        NoTextsAfterFailure(items, documentId, i + 1, |items|);
        return None;
      }
      var t := TextWith(items[i], documentId, i, prov.value);
      if t.None? {
        NoTextsAfterFailure(items, documentId, i + 1, |items|);
        return None;
      }
      texts := texts + [t.value];
      i := i + 1;
    }
    r := Some(texts);
  }

  /** The picture loop. */
  method ConvertPictures(items: seq<Dict>, documentId: string) returns (r: Option<seq<DocumentPicture>>)
    ensures r == PicturesUpTo(items, documentId, |items|)
  {
    var pictures: seq<DocumentPicture> := [];
    var i := 0;
    while i < |items|
      invariant 0 <= i <= |items|
      invariant PicturesUpTo(items, documentId, i) == Some(pictures)
    {
      var prov := ConvertProvenance(items[i]);
      if prov.None? {
        NoPicturesAfterFailure(items, documentId, i + 1, |items|);
        return None;
      }
      var p := PictureWith(items[i], documentId, i, prov.value);
      if p.None? {
        NoPicturesAfterFailure(items, documentId, i + 1, |items|);
        return None;
      }
      pictures := pictures + [p.value];
      i := i + 1;
    }
    r := Some(pictures);
  }

  /** The table loop. */
  method ConvertTables(items: seq<Dict>, documentId: string) returns (r: Option<seq<DocumentTable>>)
    ensures r == TablesUpTo(items, documentId, |items|)
  {
    var tables: seq<DocumentTable> := [];
    var i := 0;
    while i < |items|
      invariant 0 <= i <= |items|
      invariant TablesUpTo(items, documentId, i) == Some(tables)
    {
      var prov := ConvertProvenance(items[i]);
      if prov.None? {
        NoTablesAfterFailure(items, documentId, i + 1, |items|);
        return None;
      }
      var t := TableWith(items[i], documentId, i, prov.value);
      if t.None? {
        NoTablesAfterFailure(items, documentId, i + 1, |items|);
        return None;
      }
      tables := tables + [t.value];
      i := i + 1;
    }
    r := Some(tables);
  }

  /** create_document_entities_from_docling: the header, then the three
      element loops in order; None when converting an element raises. */
  method CreateDocumentEntities(dl: ConverterDocument, documentId: string) returns (r: Option<Entities>)
    ensures r.Some? <==>
      TextsUpTo(dl.texts, documentId, |dl.texts|).Some?
      && PicturesUpTo(dl.pictures, documentId, |dl.pictures|).Some?
      && TablesUpTo(dl.tables, documentId, |dl.tables|).Some?
    ensures r.Some? ==>
      r.value.document == Header(dl)
      && r.value.texts == TextsUpTo(dl.texts, documentId, |dl.texts|).value
      && r.value.pictures == PicturesUpTo(dl.pictures, documentId, |dl.pictures|).value
      && r.value.tables == TablesUpTo(dl.tables, documentId, |dl.tables|).value
  {
    var document := Header(dl);
    var texts := ConvertTexts(dl.texts, documentId);
    if texts.None? {
      return None;
    }
    var pictures := ConvertPictures(dl.pictures, documentId);
    if pictures.None? {
      return None;
    }
    var tables := ConvertTables(dl.tables, documentId);
    if tables.None? {
      return None;
    }
    r := Some(Entities(document, texts.value, pictures.value, tables.value));
  }

  lemma {:induction false} NoTextsAfterFailure(items: seq<Dict>, documentId: string, m: nat, n: nat)
    requires m <= n <= |items| && TextsUpTo(items, documentId, m).None?
    ensures TextsUpTo(items, documentId, n).None?
    decreases n - m
  {
    if m < n {
      NoTextsAfterFailure(items, documentId, m + 1, n);
    }
  }

  lemma {:induction false} NoPicturesAfterFailure(items: seq<Dict>, documentId: string, m: nat, n: nat)
    requires m <= n <= |items| && PicturesUpTo(items, documentId, m).None?
    ensures PicturesUpTo(items, documentId, n).None?
    decreases n - m
  {
    if m < n {
      NoPicturesAfterFailure(items, documentId, m + 1, n);
    }
  }

  lemma {:induction false} NoTablesAfterFailure(items: seq<Dict>, documentId: string, m: nat, n: nat)
    requires m <= n <= |items| && TablesUpTo(items, documentId, m).None?
    ensures TablesUpTo(items, documentId, n).None?
    decreases n - m
  {
    if m < n {
      NoTablesAfterFailure(items, documentId, m + 1, n);
    }
  }

  lemma {:induction false} NoProvsAfterFailure(es: seq<Json>, m: nat, n: nat)
    requires m <= n <= |es| && KeptProvs(es[..m]).None?
    ensures KeptProvs(es[..n]).None?
    decreases n - m
  {
    if m < n {
      assert es[..m + 1][..m] == es[..m];
      NoProvsAfterFailure(es, m + 1, n);
    }
  }
}
