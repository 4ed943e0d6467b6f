/** What the distribution, cluster and JSON-printing scripts share: the
    recognised figure texts and rendered tables of a page, the per-page
    content dictionary, and the output record built from it. */
module PageRecords {
  import opened Wrappers
  import opened Seqs
  import opened PyStr
  import opened PyDict
  import opened Layout
  import opened TableRender

  const PdfPath: string := "./data/AFD-180201-00-5-3.pdf"
  const Vector: string := "<BERT_Embedding_of_combined_text>"
  const Source: string := "Tinker Air Force Base"

  /** The page key f"Page_{pagenum}"; distinct pages get distinct keys. */
  function PageKey(pagenum: nat): string {
    "Page_" + NatToString(pagenum)
  }

  lemma PageKeyInjective(a: nat, b: nat)
    requires PageKey(a) == PageKey(b)
    ensures a == b
  {
    assert PageKey(a)[5..] == NatToString(a);
    assert PageKey(b)[5..] == NatToString(b);
    NatToStringInjective(a, b);
  }

  /** The dictionary that assigns vals[0], vals[1], ... to "Page_0",
      "Page_1", ... in that order. */
  function PagesDict<V>(vals: seq<V>): (d: Dict<string, V>)
    ensures |d| == |vals|
    ensures forall k :: 0 <= k < |vals| ==> d[k] == (PageKey(k), vals[k])
  {
    if vals == [] then []
    else PagesDict(vals[..|vals| - 1]) + [(PageKey(|vals| - 1), vals[|vals| - 1])]
  }

  /** Assigning the next page's value, a key not yet present, extends the
      dictionary by one entry. */
  lemma PagesDictSnoc<V>(vals: seq<V>, v: V)
    ensures Put(PagesDict(vals), PageKey(|vals|), v) == PagesDict(vals + [v])
  {
    var d := PagesDict(vals);
    var n := |vals|;
    FreshPageKey(d, n);
    PutNew(d, PageKey(n), v);
    var w := vals + [v];
    assert w[..n] == vals;
    assert w[n] == v;
    assert PagesDict(w) == PagesDict(w[..n]) + [(PageKey(n), w[n])];
  }

  /** The key of the next page is new to a dictionary holding the keys of
      the earlier pages in order. */
  lemma FreshPageKey<V>(d: Dict<string, V>, n: nat)
    requires |d| == n
    requires forall k :: 0 <= k < n ==> d[k].0 == PageKey(k)
    ensures PageKey(n) !in Keys(d)
  {
    forall k | 0 <= k < |d| ensures Keys(d)[k] != PageKey(n) {
      if Keys(d)[k] == PageKey(n) {
        PageKeyInjective(k, n);
      }
    }
  }

  /** extract_and_process_images: the recognised text of every figure of the
      sorted page, in order. */
  method ExtractAndProcessImages(pageElements: seq<Element>, ocr: Element -> string)
    returns (imagesText: seq<string>)
    ensures |imagesText| == |Figures(pageElements)|
    ensures forall k :: 0 <= k < |imagesText| ==> imagesText[k] == ocr(Figures(pageElements)[k])
  {
    imagesText := [];
    var i := 0;
    while i < |pageElements|
      invariant 0 <= i <= |pageElements|
      invariant imagesText == FigureTexts(pageElements[..i], ocr)
    {
      var element := pageElements[i];
      if element.Figure? {
        var imageText := ocr(element);
        imagesText := imagesText + [imageText];
      }
      TakeTake(pageElements, i);
      i := i + 1;
    }
    TakeAll(pageElements, i);
    FigureTextsOfFigures(pageElements, ocr);
  }

  /** process_tables: the rendering of every table of the page, in the
      finder's order; the grids themselves are inputs. */
  method ProcessTables(grids: seq<seq<seq<Cell>>>) returns (tableTexts: seq<string>)
    ensures |tableTexts| == |grids|
    ensures forall k :: 0 <= k < |grids| ==> tableTexts[k] == TableString(grids[k])
  {
    tableTexts := [];
    var tableNum := 0;
    while tableNum < |grids|
      invariant 0 <= tableNum <= |grids|
      invariant |tableTexts| == tableNum
      invariant forall k :: 0 <= k < tableNum ==> tableTexts[k] == TableString(grids[k])
    {
      var tableString := TableConverter(grids[tableNum]);
      tableTexts := tableTexts + [tableString];
      tableNum := tableNum + 1;
    }
  }

  /** What the layout analysis and the table finder give for one page: its
      elements and the grids of its tables. */
  datatype PageLayout = PageLayout(elements: seq<Element>, grids: seq<seq<seq<Cell>>>)

  /** The texts of all text elements, in order. */
  function BoxTexts(els: seq<Element>): seq<string> {
    if els == [] then []
    else
      var e := els[|els| - 1];
      BoxTexts(els[..|els| - 1]) + (if e.TextBox? then [BoxText(e.children)] else [])
  }

  /** The renderings of all tables, in order. */
  function RenderAll(grids: seq<seq<seq<Cell>>>): seq<string> {
    seq(|grids|, k requires 0 <= k < |grids| => TableString(grids[k]))
  }

  /** The dictionary page_content of the distribution and cluster scripts,
      whose five keys are fixed when it is created. */
  datatype PageContent = PageContent(
    heading: seq<string>,
    subheading: seq<string>,
    content: seq<string>,
    images: seq<string>,
    tables: seq<string>)

  function EmptyContent(): PageContent {
    PageContent([], [], [], [], [])
  }

  predicate IsContentKey(key: string) {
    key == "heading" || key == "subheading" || key == "content" || key == "images" || key == "tables"
  }

  /** page_content[key].append(text): KeyError unless key is one of the five
      keys; otherwise that list, and only that one, gains the text. */
  function AppendTo(pc: PageContent, key: string, text: string): (r: Result<PageContent, PyException>)
    ensures r.Ok? <==> IsContentKey(key)
    ensures r.Err? ==> r.error == KeyError
    ensures r.Ok? ==> r.value.heading == pc.heading + (if key == "heading" then [text] else [])
    ensures r.Ok? ==> r.value.subheading == pc.subheading + (if key == "subheading" then [text] else [])
    ensures r.Ok? ==> r.value.content == pc.content + (if key == "content" then [text] else [])
    ensures r.Ok? ==> r.value.images == pc.images + (if key == "images" then [text] else [])
    ensures r.Ok? ==> r.value.tables == pc.tables + (if key == "tables" then [text] else [])
  {
    if key == "heading" then Ok(pc.(heading := pc.heading + [text]))
    else if key == "subheading" then Ok(pc.(subheading := pc.subheading + [text]))
    else if key == "content" then Ok(pc.(content := pc.content + [text]))
    else if key == "images" then Ok(pc.(images := pc.images + [text]))
    else if key == "tables" then Ok(pc.(tables := pc.tables + [text]))
    else Err(KeyError)
  }

  datatype Traceability = Traceability(source: string, manualReference: string, exactLocation: string)

  /** The record of one page in the output of the distribution and cluster
      scripts. */
  datatype PageRecord = PageRecord(
    documentId: string,
    documentTitle: string,
    documentUrl: string,
    pageNumber: string,
    header: string,
    subheader: string,
    content: string,
    tableText: string,
    imageText: string,
    vector: string,
    traceability: Traceability)

  /** The record promised for a page: every list joined by line breaks, the
      page key as page number and as location, and fixed values elsewhere. */
  predicate RecordOf(r: PageRecord, key: string, pc: PageContent) {
    && r.documentId == "" && r.documentTitle == "" && r.documentUrl == PdfPath
    && r.pageNumber == key
    && r.header == Join("\n", pc.heading)
    && r.subheader == Join("\n", pc.subheading)
    && r.content == Join("\n", pc.content)
    && r.tableText == Join("\n", pc.tables)
    && r.imageText == Join("\n", pc.images)
    && r.vector == Vector
    && r.traceability == Traceability(Source, "", key)
  }

  /** structure_pdf_data: one record per page, in dictionary order. */
  method StructurePdfData(textPerPage: Dict<string, PageContent>) returns (data: seq<PageRecord>)
    ensures |data| == |textPerPage|
    ensures forall k :: 0 <= k < |data| ==> RecordOf(data[k], textPerPage[k].0, textPerPage[k].1)
  {
    data := [];
    var i := 0;
    while i < |textPerPage|
      invariant 0 <= i <= |textPerPage|
      invariant |data| == i
      invariant forall k :: 0 <= k < i ==> RecordOf(data[k], textPerPage[k].0, textPerPage[k].1)
    {
      var (pageNum, contentDict) := textPerPage[i];
      var pageData := PageRecord(
        "", "", PdfPath, pageNum,
        Join("\n", contentDict.heading),
        Join("\n", contentDict.subheading),
        Join("\n", contentDict.content),
        Join("\n", contentDict.tables),
        Join("\n", contentDict.images),
        Vector,
        Traceability(Source, "", pageNum));
      data := data + [pageData];
      i := i + 1;
    }
  }

  /** When no text holds a line break, each field of the record splits back
      into the list it was joined from. */
  lemma HeaderLines(r: PageRecord, key: string, pc: PageContent)
    requires RecordOf(r, key, pc)
    requires pc.heading != []
    requires forall k :: 0 <= k < |pc.heading| ==> '\n' !in pc.heading[k]
    ensures SplitOn('\n', r.header) == pc.heading
  {
    SplitOnJoin('\n', pc.heading);
  }
}
